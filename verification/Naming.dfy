/** Names and artifact paths (workflow_builder.go) and the uploader that splits them (upload.py). */
module Naming {
  import opened Model

  predicate IsDigit(c: char) {
    '0' <= c <= '9'
  }

  function Digits(n: nat): (s: string)
    ensures s != "" && forall i :: 0 <= i < |s| ==> IsDigit(s[i])
  {
    var last := [(n % 10) as char + '0'];
    if n < 10 then last else Digits(n / 10) + last
  }

  /** What `%d` prints. */
  function Decimal(x: int): string {
    if x < 0 then "-" + Digits(-x) else Digits(x)
  }

  function ParseDigits(s: string): nat
    requires forall i :: 0 <= i < |s| ==> IsDigit(s[i])
  {
    if s == "" then 0 else
      assert IsDigit(s[|s| - 1]);
      10 * ParseDigits(s[..|s| - 1]) + (s[|s| - 1] - '0') as nat
  }

  /** Decimal printing can be read back, so it is injective. */
  lemma {:induction false} ParsePrinted(n: nat)
    ensures ParseDigits(Digits(n)) == n
  {
    if n < 10 {
      assert Digits(n)[..0] == "";
    } else {
      ParsePrinted(n / 10);
      assert Digits(n)[..|Digits(n)| - 1] == Digits(n / 10);
    }
  }

  lemma DigitsInjective(m: nat, n: nat)
    requires Digits(m) == Digits(n)
    ensures m == n
  {
    ParsePrinted(m);
    ParsePrinted(n);
  }

  function WorkflowName(jobName: string, attempt: int): string {
    jobName + "-attempt-" + Decimal(attempt)
  }

  /** A string with its trailing digits removed. */
  function TrimDigits(s: string): string {
    if s != "" && IsDigit(s[|s| - 1]) then TrimDigits(s[..|s| - 1]) else s
  }

  lemma {:induction false} TrimAppended(stem: string, digits: string)
    requires stem != "" && !IsDigit(stem[|stem| - 1])
    requires forall i :: 0 <= i < |digits| ==> IsDigit(digits[i])
    ensures TrimDigits(stem + digits) == stem
  {
    if digits == "" {
      assert stem + digits == stem;
    } else {
      assert (stem + digits)[..|stem + digits| - 1] == stem + digits[..|digits| - 1];
      TrimAppended(stem, digits[..|digits| - 1]);
    }
  }

  function Stem(jobName: string, attempt: int): string {
    jobName + (if attempt < 0 then "-attempt--" else "-attempt-")
  }

  lemma SplitName(jobName: string, attempt: int)
    ensures var n := if attempt < 0 then -attempt else attempt;
            && WorkflowName(jobName, attempt) == Stem(jobName, attempt) + Digits(n)
            && TrimDigits(WorkflowName(jobName, attempt)) == Stem(jobName, attempt)
  {
    var n := if attempt < 0 then -attempt else attempt;
    assert WorkflowName(jobName, attempt) == Stem(jobName, attempt) + Digits(n);
    TrimAppended(Stem(jobName, attempt), Digits(n));
  }

  /** Two (job, attempt) pairs never share a Workflow name, whatever the job names end in. */
  lemma WorkflowNamesInjective(j: string, a: int, j': string, a': int)
    requires WorkflowName(j, a) == WorkflowName(j', a')
    ensures j == j' && a == a'
  {
    var n, n' := if a < 0 then -a else a, if a' < 0 then -a' else a';
    SplitName(j, a);
    SplitName(j', a');
    var s, s' := Stem(j, a), Stem(j', a');
    var w := WorkflowName(j, a);
    assert s == s';
    assert Digits(n) == w[|s|..] == Digits(n');
    ParsePrinted(n);
    ParsePrinted(n');
    assert s[|s| - 2] == (if a < 0 then '-' else 't') == (if a' < 0 then '-' else 't');
    assert j == s[..|j|] && j' == s'[..|j'|];
  }

  /** The bucket-prefixed object prefix, `<bucket>/<namespace>/<name>`. */
  function S3Path(job: Job): string {
    job.spec.bucket + "/" + job.namespace + "/" + job.name
  }

  function ModelURI(job: Job): string {
    "s3://" + S3Path(job) + "/"
  }

  /** Python's `s.partition("/")`: the text before the first slash and the text after it. */
  function Partition(s: string): (r: (string, string))
    ensures '/' !in r.0
    ensures '/' in s ==> s == r.0 + "/" + r.1
    ensures '/' !in s ==> r == (s, "")
  {
    if s == "" || s[0] == '/' then ("", if s == "" then "" else s[1..])
    else
      var (head, tail) := Partition(s[1..]);
      PartitionLater(s, head, tail);
      ([s[0]] + head, tail)
  }

  /** A first character that is no slash joins the head. */
  lemma PartitionLater(s: string, head: string, tail: string)
    requires s != "" && s[0] != '/' && '/' !in head
    requires if '/' in s[1..] then s[1..] == head + "/" + tail else (head, tail) == (s[1..], "")
    ensures '/' !in [s[0]] + head
    ensures if '/' in s then s == [s[0]] + head + "/" + tail else ([s[0]] + head, tail) == (s, "")
  {
    assert s == [s[0]] + s[1..];
    assert '/' in s <==> '/' in s[1..];
    assert [s[0]] + (head + "/" + tail) == ([s[0]] + head) + "/" + tail;
  }

  /** `os.path.basename`: what follows the last slash. */
  function BaseName(path: string): (b: string)
    ensures '/' !in b
    ensures exists dir :: path == dir + b && (dir == "" || dir[|dir| - 1] == '/')
  {
    if path == "" || path[|path| - 1] == '/' then
      assert path == path + "";
      ""
    else
      var b := BaseName(path[..|path| - 1]);
      var dir :| path[..|path| - 1] == dir + b && (dir == "" || dir[|dir| - 1] == '/');
      assert path == dir + (b + [path[|path| - 1]]);
      b + [path[|path| - 1]]
  }

  datatype Upload = Upload(bucket: string, key: string)
  {
    function Url(): string {
      "s3://" + bucket + "/" + key
    }
  }

  /** Printed numbers have no leading zero. */
  lemma {:induction false} NoLeadingZero(n: nat)
    ensures Digits(n)[0] == '0' <==> n == 0
    ensures n == 0 ==> Digits(n) == "0"
  {
    if n >= 10 {
      NoLeadingZero(n / 10);
      assert Digits(n)[0] == Digits(n / 10)[0];
    }
  }

  /** The uploader refuses a path without a bucket or without a prefix. */
  predicate Rejected(s3Path: string) {
    var (bucket, prefix) := Partition(s3Path);
    bucket == "" || prefix == ""
  }

  /** upload.py: split `<bucket>/<prefix>` once, then put every file under the prefix. */
  method UploadFiles(s3Path: string, files: seq<string>) returns (uploads: Option<seq<Upload>>)
    ensures uploads.None? <==> Partition(s3Path).0 == "" || Partition(s3Path).1 == ""
    ensures uploads.Some? ==> |uploads.value| == |files|
    ensures uploads.Some? ==> forall i :: 0 <= i < |files| ==>
      && uploads.value[i].bucket == Partition(s3Path).0
      && uploads.value[i].key == Partition(s3Path).1 + "/" + BaseName(files[i])
      && uploads.value[i].Url() == "s3://" + s3Path + "/" + BaseName(files[i])
    ensures uploads.Some? ==> forall job: Job, i :: S3Path(job) == s3Path && 0 <= i < |files| ==>
      uploads.value[i].Url() == ModelURI(job) + BaseName(files[i])
  {
    hide BaseName, Partition, S3Path, IsUploaded;
    var (bucket, prefix) := Partition(s3Path);
    if bucket == "" || prefix == "" {
      return None;
    }
    PartitionJoins(s3Path);
    var done: seq<Upload> := [];
    for i := 0 to |files|
      invariant |done| == i
      invariant forall k :: 0 <= k < i ==> IsUploaded(done[k], bucket, s3Path, files[k])
      invariant forall k :: 0 <= k < i ==> done[k].key == prefix + "/" + BaseName(files[k])
    {
      var upload := Upload(bucket, prefix + "/" + BaseName(files[i]));
      UploadLands(bucket, prefix, files[i]);
      done := done + [upload];
    }
    UploadsLand(done, bucket, s3Path, files);
    uploads := Some(done);
  }

  lemma PartitionJoins(s: string)
    requires Partition(s).1 != ""
    ensures s == Partition(s).0 + "/" + Partition(s).1
  {
  }

  predicate IsUploaded(upload: Upload, bucket: string, s3Path: string, file: string) {
    upload.bucket == bucket && upload.Url() == "s3://" + s3Path + "/" + BaseName(file)
  }

  lemma UploadLands(bucket: string, prefix: string, file: string)
    ensures IsUploaded(Upload(bucket, prefix + "/" + BaseName(file)), bucket, bucket + "/" + prefix, file)
  {
    hide BaseName;
    UrlOfUpload(bucket, prefix, BaseName(file));
  }

  lemma UploadsLand(done: seq<Upload>, bucket: string, s3Path: string, files: seq<string>)
    requires |done| == |files| && forall k :: 0 <= k < |done| ==> IsUploaded(done[k], bucket, s3Path, files[k])
    ensures forall i :: 0 <= i < |files| ==>
      done[i].bucket == bucket && done[i].Url() == "s3://" + s3Path + "/" + BaseName(files[i])
    ensures forall job: Job, i :: S3Path(job) == s3Path && 0 <= i < |files| ==>
      done[i].Url() == ModelURI(job) + BaseName(files[i])
  {
    hide BaseName, S3Path, Upload.Url;
    forall i | 0 <= i < |files|
      ensures done[i].bucket == bucket && done[i].Url() == "s3://" + s3Path + "/" + BaseName(files[i])
    {
      assert IsUploaded(done[i], bucket, s3Path, files[i]);
    }
  }

  lemma UrlOfUpload(bucket: string, prefix: string, base: string)
    ensures Upload(bucket, prefix + "/" + base).Url() == "s3://" + (bucket + "/" + prefix) + "/" + base
  {
    assert bucket + "/" + (prefix + "/" + base) == (bucket + "/" + prefix) + ("/" + base);
    Assoc("s3://" + bucket + "/", prefix, "/" + base);
    Assoc("s3://", bucket + "/" + prefix, "/" + base);
    Assoc("s3://" + (bucket + "/" + prefix), "/", base);
  }

  lemma Assoc(a: string, b: string, c: string)
    ensures (a + b) + c == a + (b + c)
  {
  }

  lemma {:induction false} PartitionAtFirst(head: string, tail: string)
    requires '/' !in head
    ensures Partition(head + "/" + tail) == (head, tail)
  {
    var s := head + "/" + tail;
    if head == "" {
      assert s[0] == '/' && s[1..] == tail;
    } else {
      assert s[0] == head[0] && s[1..] == head[1..] + "/" + tail;
      assert head == [head[0]] + head[1..];
      PartitionAtFirst(head[1..], tail);
    }
  }

  /** The uploader turns away exactly the jobs whose bucket is empty or starts with a slash. */
  lemma UploadRejection(job: Job)
    requires job.name != ""
    ensures Rejected(S3Path(job)) <==> job.spec.bucket == "" || job.spec.bucket[0] == '/'
  {
    var bucket := job.spec.bucket;
    var (head, tail) := Partition(bucket);
    if '/' in bucket {
      var rest := tail + "/" + job.namespace + "/" + job.name;
      assert S3Path(job) == head + "/" + rest;
      PartitionAtFirst(head, rest);
      assert bucket[0] == '/' <==> head == "";
    } else {
      assert S3Path(job) == bucket + "/" + (job.namespace + "/" + job.name);
      PartitionAtFirst(bucket, job.namespace + "/" + job.name);
    }
  }

  /** The split gives back the job's bucket, and `<namespace>/<name>`, iff the bucket has no slash. */
  lemma S3PathRoundTrip(job: Job)
    ensures Partition(S3Path(job)) == (job.spec.bucket, job.namespace + "/" + job.name)
            <==> '/' !in job.spec.bucket
  {
    if '/' !in job.spec.bucket {
      assert S3Path(job) == job.spec.bucket + "/" + (job.namespace + "/" + job.name);
      PartitionAtFirst(job.spec.bucket, job.namespace + "/" + job.name);
    }
  }

  /** Distinct jobs upload to distinct places. */
  lemma S3PathsInjective(job: Job, job': Job)
    requires '/' !in job.spec.bucket && '/' !in job'.spec.bucket
    requires '/' !in job.namespace && '/' !in job'.namespace
    requires S3Path(job) == S3Path(job')
    ensures job.spec.bucket == job'.spec.bucket
    ensures job.namespace == job'.namespace && job.name == job'.name
  {
    S3PathRoundTrip(job);
    S3PathRoundTrip(job');
    PartitionAtFirst(job.namespace, job.name);
    PartitionAtFirst(job'.namespace, job'.name);
  }

  /** No two jobs ever write the same object, and one job writes one object per base name. */
  lemma UploadedObjectsDisjoint(job: Job, job': Job, file: string, file': string)
    requires '/' !in job.spec.bucket && '/' !in job'.spec.bucket
    requires '/' !in job.namespace && '/' !in job'.namespace
    requires '/' !in job.name && '/' !in job'.name
    requires ModelURI(job) + BaseName(file) == ModelURI(job') + BaseName(file')
    ensures S3Path(job) == S3Path(job') && job.name == job'.name && job.namespace == job'.namespace
    ensures BaseName(file) == BaseName(file')
  {
    UriTail(job, BaseName(file));
    UriTail(job', BaseName(file'));
    CutAtSlash(job.spec.bucket, job.namespace + "/" + (job.name + "/" + BaseName(file)),
               job'.spec.bucket, job'.namespace + "/" + (job'.name + "/" + BaseName(file')));
    CutAtSlash(job.namespace, job.name + "/" + BaseName(file),
               job'.namespace, job'.name + "/" + BaseName(file'));
    CutAtSlash(job.name, BaseName(file), job'.name, BaseName(file'));
  }

  lemma CutAtSlash(h: string, t: string, h': string, t': string)
    requires '/' !in h && '/' !in h'
    requires h + "/" + t == h' + "/" + t'
    ensures h == h' && t == t'
  {
    PartitionAtFirst(h, t);
    PartitionAtFirst(h', t');
  }

  lemma UriTail(job: Job, base: string)
    ensures (ModelURI(job) + base)[5..]
         == job.spec.bucket + "/" + (job.namespace + "/" + (job.name + "/" + base))
  {
    var path := S3Path(job);
    assert (ModelURI(job) + base)[5..] == path + "/" + base;
    Assoc(job.spec.bucket + "/" + job.namespace, "/", job.name);
    Assoc(job.spec.bucket + "/", job.namespace, "/" + job.name);
    assert path + "/" + base == job.spec.bucket + "/" + (job.namespace + "/" + (job.name + "/" + base));
  }
}
