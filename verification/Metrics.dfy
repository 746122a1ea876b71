/** The exporter's tick (components/fake-dcgm-exporter/main.py, `update_metrics`), over the reals. */
module Metrics {
  import opened Naming
  import opened FleetModel

  const FB_TOTAL_MB: int := 15360
  const MODEL_NAME := "Tesla T4"

  /** Python's `round`: to the nearest integer, ties to the even one. */
  function Round(x: real): (r: int)
    ensures -0.5 <= r as real - x <= 0.5
    ensures (r as real - x == 0.5 || r as real - x == -0.5) ==> r % 2 == 0
  {
    var below := x.Floor;
    var rest := x - below as real;
    if rest < 0.5 || (rest == 0.5 && below % 2 == 0) then below else below + 1
  }

  /** Rounding both parts of an integer total preserves the total, always, iff the total is even. */
  lemma RoundedPartsAddUpIff(total: int)
    ensures (forall x: real :: Round(x) + Round(total as real - x) == total) <==> total % 2 == 0
  {
    if total % 2 == 0 {
      forall x: real
        ensures Round(x) + Round(total as real - x) == total
      {
        EvenTotal(x, total);
      }
    } else {
      assert Round(0.5) == 0;
      assert Round(total as real - 0.5) == total - 1;
    }
  }

  lemma EvenTotal(x: real, total: int)
    requires total % 2 == 0
    ensures Round(x) + Round(total as real - x) == total
  {
    var sum := Round(x) + Round(total as real - x);
    assert -1.0 <= (sum - total) as real <= 1.0;
  }

  /** The series of one GPU after a tick. */
  datatype Sample = Sample(
    gpu: nat,
    uuid: string,
    device: string,
    modelName: string,
    hostname: string,
    taken: int,
    namespace: string,
    pod: string,
    container: string,
    util: real,
    fbUsed: int,
    fbFree: int,
    power: real,
    temp: int,
    smClock: int)

  /** What the sine wobble and the random source contribute to one GPU's sample. */
  datatype Draws = Draws(
    wobble: real,
    noise: real,
    idleUtil: real,
    idleFb: real,
    busyPower: real,
    idlePower: real,
    heat: real,
    idleTemp: real)
  {
    /** A sine, any Gaussian noise, and uniform draws from the ranges asked for. */
    predicate Possible() {
      && -1.0 <= wobble <= 1.0
      && 0.0 <= idleUtil <= 2.0 && 0.0 <= idleFb <= 10.0
      && 65.0 <= busyPower <= 70.0 && 9.0 <= idlePower <= 12.0
      && 0.0 <= heat <= 3.0 && 30.0 <= idleTemp <= 35.0
    }
  }

  function Uuid(gpu: nat): string {
    "GPU-0000feed-cafe-beef-0000-00000000000" + Digits(gpu)
  }

  function Device(gpu: nat): string {
    "nvidia" + Digits(gpu)
  }

  lemma UuidsDiffer(i: nat, j: nat)
    requires i != j
    ensures Uuid(i) != Uuid(j) && Device(i) != Device(j)
  {
    var stem, name := "GPU-0000feed-cafe-beef-0000-00000000000", "nvidia";
    assert Uuid(i)[|stem|..] == Digits(i) && Uuid(j)[|stem|..] == Digits(j);
    assert Device(i)[|name|..] == Digits(i) && Device(j)[|name|..] == Digits(j);
    if Digits(i) == Digits(j) {
      DigitsInjective(i, j);
    }
  }

  /** Rounding to one decimal. */
  function Tenths(x: real): (r: real)
    ensures -0.05 <= r - x <= 0.05
  {
    Round(10.0 * x) as real / 10.0
  }

  function Clamp(low: real, high: real, x: real): real {
    if x < low then low else if x > high then high else x
  }

  /** Clamping picks the nearest value in range. */
  lemma ClampIsNearest(low: real, high: real, x: real, y: real)
    requires low <= y <= high
    ensures var r := Clamp(low, high, x);
            low <= r <= high && (if r < x then x - r else r - x) <= (if y < x then x - y else y - x)
  {
  }

  /** From data loading to training in two minutes. */
  function Ramp(since: real, t: real): (r: real)
    ensures r <= 1.0
  {
    if (t - since) / 120.0 < 1.0 then (t - since) / 120.0 else 1.0
  }

  /** The framebuffer of a GPU taken at `since` fills from 1000 to 13000 MB at 100 MB a second. */
  lemma RampFills(held: map<nat, Assignment>, gpu: nat, t: real, draw: real)
    requires gpu in held
    ensures var age := t - held[gpu].since;
            FramebufferUsed(held, gpu, t, draw) == (if age < 120.0 then 1000.0 + 100.0 * age else 13000.0)
  {
  }

  /** Framebuffer use: the ramp for an assigned GPU, a small random draw for an idle one. */
  function FramebufferUsed(held: map<nat, Assignment>, gpu: nat, t: real, draw: real): (r: real)
    ensures draw <= 10.0 ==> r <= 13000.0
  {
    if gpu in held then 1000.0 + Ramp(held[gpu].since, t) * 12000.0 else draw
  }

  /** Which GPU a sample is of, and whether it is taken. */
  predicate Identifies(x: Sample, held: map<nat, Assignment>, gpu: nat) {
    && x.gpu == gpu && x.uuid == Uuid(gpu) && x.device == Device(gpu)
    && x.taken == if gpu in held then 1 else 0
  }

  /** What a tick must publish for one GPU. */
  ghost predicate Describes(x: Sample, hostname: string, held: map<nat, Assignment>, gpu: nat, t: real, draws: Draws) {
    && Identifies(x, held, gpu)
    && x.uuid == "GPU-0000feed-cafe-beef-0000-00000000000" + Digits(gpu) && x.device == "nvidia" + Digits(gpu)
    && x.modelName == "Tesla T4" && x.hostname == hostname
    && x.fbUsed == Round(FramebufferUsed(held, gpu, t, draws.idleFb))
    && x.fbUsed + x.fbFree == 15360 && 2360 <= x.fbFree
    && 0.0 <= x.util <= 100.0
    && (if gpu in held
        then
          && (x.namespace, x.pod, x.container) == (held[gpu].namespace, held[gpu].pod, held[gpu].container)
          && x.util == Tenths(Clamp(0.0, 100.0, 88.0 + 8.0 * draws.wobble + draws.noise))
          && x.power == Tenths(draws.busyPower) && 65.0 <= x.power <= 70.0
          && x.temp == Round(55.0 + 10.0 * Ramp(held[gpu].since, t) + draws.heat) && x.temp <= 68
          && x.smClock == 1590
        else
          && x.namespace == x.pod == x.container == ""
          && x.util == Tenths(draws.idleUtil) && x.util <= 2.0
          && x.power == Tenths(draws.idlePower) && 9.0 <= x.power <= 12.0
          && x.temp == Round(draws.idleTemp) && 30 <= x.temp <= 35
          && x.smClock == 300)
  }

  /** Rounding keeps what lies between two integers there. */
  lemma RoundWithin(low: int, high: int, x: real)
    requires low as real <= x <= high as real
    ensures low <= Round(x) <= high
  {
  }

  lemma TenthsWithin(low: int, high: int, x: real)
    requires low as real <= x <= high as real
    ensures low as real <= Tenths(x) <= high as real
  {
    RoundWithin(10 * low, 10 * high, 10.0 * x);
  }

  function AssignedSum(series: seq<Sample>): int {
    if series == [] then 0 else AssignedSum(series[..|series| - 1]) + series[|series| - 1].taken
  }

  /** The 0/1 series add up to the number of GPUs taken among those listed. */
  lemma {:induction false} AssignedSumCounts(series: seq<Sample>, held: map<nat, Assignment>)
    requires forall i :: 0 <= i < |series| ==> series[i].taken == if i in held then 1 else 0
    ensures AssignedSum(series) == |held.Keys * Indices(|series|)|
  {
    if series == [] {
      assert held.Keys * Indices(0) == {};
    } else {
      var last := |series| - 1;
      AssignedSumCounts(series[..last], held);
      hide Indices;
      var before := held.Keys * Indices(last);
      assert held.Keys * Indices(last + 1) == if last in held then before + {last} else before;
    }
  }

  /** The cost report's input is right: a tick's assigned series sum to the number of pods served. */
  lemma MetricsAgreeWithAllocator(s: FleetState, n: nat, series: seq<Sample>)
    requires Consistent(s, n) && |series| == n
    requires forall i :: 0 <= i < n ==> Identifies(series[i], s.assignments, i)
    ensures AssignedSum(series) == |s.podToGpu|
    ensures forall i, j :: 0 <= i < j < n ==> series[i].uuid != series[j].uuid && series[i].device != series[j].device
  {
    hide Uuid, Device;
    HeldCount(s, n);
    AssignedSumCounts(series, s.assignments);
    assert s.assignments.Keys * Indices(n) == s.assignments.Keys;
    forall i, j | 0 <= i < j < n
      ensures series[i].uuid != series[j].uuid && series[i].device != series[j].device
    {
      UuidsDiffer(i, j);
    }
  }

  class Exporter {
    const hostname: string
    var series: seq<Sample>

    constructor (hostname: string)
      ensures this.hostname == hostname && series == []
    {
      this.hostname := hostname;
      series := [];
    }

    /** Drop every old series, then emit one sample per GPU from one snapshot of the fleet. */
    method UpdateMetrics(fleet: Fleet, t: real, draws: seq<Draws>)
      requires fleet.Valid() && |draws| == fleet.gpuCount
      requires forall i :: 0 <= i < |draws| ==> draws[i].Possible()
      modifies this
      ensures |series| == fleet.gpuCount
      ensures forall i :: 0 <= i < |series| ==>
        Describes(series[i], hostname, fleet.View().assignments, i, t, draws[i])
      ensures AssignedSum(series) == |fleet.View().podToGpu|
      ensures forall i, j :: 0 <= i < j < |series| ==>
        series[i].uuid != series[j].uuid && series[i].device != series[j].device
    {
      var held := fleet.Snapshot();
      series := [];
      for i := 0 to fleet.gpuCount
        invariant held == fleet.View().assignments && fleet.Valid()
        invariant |series| == i
        invariant forall k :: 0 <= k < i ==> Describes(series[k], hostname, held, k, t, draws[k])
      {
        var sample := SampleOf(hostname, held, i, t, draws[i]);
        series := series + [sample];
      }
      MetricsAgreeWithAllocator(fleet.View(), fleet.gpuCount, series);
    }
  }

  method SampleOf(hostname: string, held: map<nat, Assignment>, i: nat, t: real, draws: Draws)
    returns (sample: Sample)
    requires draws.Possible()
    ensures Describes(sample, hostname, held, i, t, draws)
  {
    var util, fbUsed, power, temp, smClock;
    var namespace, pod, container, taken := "", "", "", 0;
    if i in held {
      var a := held[i];
      var ramp := Ramp(a.since, t);
      namespace, pod, container, taken := a.namespace, a.pod, a.container, 1;
      util := Clamp(0.0, 100.0, 88.0 + 8.0 * draws.wobble + draws.noise);
      fbUsed := 1000.0 + ramp * 12000.0;
      power := draws.busyPower;
      temp := 55.0 + 10.0 * ramp + draws.heat;
      smClock := 1590;
      TenthsWithin(0, 100, util);
      TenthsWithin(65, 70, power);
      assert temp <= 68.0;
    } else {
      util := draws.idleUtil;
      fbUsed := draws.idleFb;
      power := draws.idlePower;
      temp := draws.idleTemp;
      smClock := 300;
      TenthsWithin(0, 2, util);
      TenthsWithin(9, 12, power);
      RoundWithin(30, 35, temp);
    }
    EvenTotal(fbUsed, FB_TOTAL_MB);
    sample := Sample(i, Uuid(i), Device(i), MODEL_NAME, hostname, taken, namespace, pod, container, Tenths(util),
                     Round(fbUsed), Round(FB_TOTAL_MB as real - fbUsed), Tenths(power), Round(temp), smClock);
  }
}
