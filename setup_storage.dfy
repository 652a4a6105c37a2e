/**
 * The storage set-up script: its hand-written `.env` reader, the check that
 * the two Supabase settings are present, the search for the product image
 * bucket and the hint printed when the test upload fails.
 */
module SetupStorage {
  import opened Common

  type Env = map<string, string>

  /**
   * One line of the `.env` file: `[key, value] = line.split('=')`. The line is
   * kept only when both pieces are non-empty BEFORE trimming; the stored key
   * and value are trimmed, and a later line overwrites an earlier one.
   */
  function ApplyLine(env: Env, line: string): (r: Env)
    ensures '=' !in line ==> r == env
  {
    var pieces := Split(line, '=');
    var key := pieces[0];
    var value := if |pieces| >= 2 then pieces[1] else "";
    if key != "" && value != "" then env[Trim(key) := Trim(value)] else env
  }

  /** A line touches at most one key, the trimmed text before its first `=`; every other key keeps its value. */
  lemma ApplyLineFrame(env: Env, line: string)
    ensures var r := ApplyLine(env, line); var key := Trim(Split(line, '=')[0]);
      && r.Keys <= env.Keys + {key}
      && forall k :: k in env && k != key ==> k in r && r[k] == env[k]
  {
  }

  /** The lines of a file applied one after another to `env`. */
  function ApplyLines(env: Env, lines: seq<string>): (r: Env)
    ensures lines == [] ==> r == env
    ensures env.Keys <= r.Keys
  {
    if lines == [] then env else ApplyLine(ApplyLines(env, lines[..|lines| - 1]), lines[|lines| - 1])
  }

  /** The `forEach` over the file's lines, filling `envVars` one line at a time. */
  method ReadLines(lines: seq<string>) returns (env: Env)
    ensures env == ApplyLines(map[], lines)
  {
    env := map[];
    var i := 0;
    while i < |lines|
      invariant 0 <= i <= |lines|
      invariant env == ApplyLines(map[], lines[..i])
    {
      env := ApplyLine(env, lines[i]);
      assert lines[..i + 1][..i] == lines[..i];
      i := i + 1;
    }
    assert lines[..|lines|] == lines;
  }

  /**
   * `loadEnv`: the settings read from the `.env` file split at `\n`, or
   * `fallback` (the process environment) when the file cannot be read.
   */
  method LoadEnv(file: Option<string>, fallback: Env) returns (env: Env)
    ensures file.None? ==> env == fallback
    ensures file.Some? ==> env == ApplyLines(map[], Split(file.value, '\n'))
  {
    if file.None? {
      return fallback;
    }
    env := ReadLines(Split(file.value, '\n'));
  }

  /** What a line stores, read off its first two pieces. */
  lemma ApplyLineByPieces(env: Env, line: string, k: string, v: string)
    requires |Split(line, '=')| >= 2 && Split(line, '=')[0] == k && Split(line, '=')[1] == v
    ensures ApplyLine(env, line) == if k != "" && v != "" then env[Trim(k) := Trim(v)] else env
  {
  }

  /** `KEY=VALUE` stores the trimmed value under the trimmed key. */
  lemma PairStored(env: Env, k: string, v: string)
    requires k != "" && v != "" && '=' !in k && '=' !in v
    ensures ApplyLine(env, k + "=" + v) == env[Trim(k) := Trim(v)]
  {
    SplitAtFirst(k, '=', v);
  }

  /** Anything after a second `=` is dropped: `KEY=ab=cd` stores `ab`. */
  lemma SecondEqualsTruncates(env: Env, k: string, v: string, rest: string)
    requires k != "" && v != "" && '=' !in k && '=' !in v
    ensures ApplyLine(env, k + "=" + v + "=" + rest) == env[Trim(k) := Trim(v)]
  {
    var tail := v + "=" + rest;
    var line := k + "=" + tail;
    assert k + "=" + v + "=" + rest == line;
    SplitAtFirst(k, '=', tail);
    SplitAtFirst(v, '=', rest);
    ApplyLineByPieces(env, line, k, v);
  }

  /** A line that starts with `=` has an empty key and is skipped. */
  lemma EmptyKeySkipped(env: Env, rest: string)
    ensures ApplyLine(env, "=" + rest) == env
  {
    SplitAtFirst("", '=', rest);
    assert "" + "=" + rest == "=" + rest;
  }

  /** `KEY=` and `KEY==…` have an empty value piece and are skipped. */
  lemma EmptyValueSkipped(env: Env, k: string, rest: string)
    requires '=' !in k
    ensures ApplyLine(env, k + "=") == env
    ensures ApplyLine(env, k + "==" + rest) == env
  {
    var line1 := k + "=" + "";
    assert k + "=" == line1;
    SplitAtFirst(k, '=', "");
    assert Split("", '=') == [""];
    ApplyLineByPieces(env, line1, k, "");
    var tail := "=" + rest;
    var line2 := k + "=" + tail;
    assert k + "==" + rest == line2;
    SplitAtFirst(k, '=', tail);
    assert "" + "=" + rest == tail;
    SplitAtFirst("", '=', rest);
    ApplyLineByPieces(env, line2, k, "");
  }

  /**
   * The emptiness test comes before the trim: ` = ` passes it and stores the
   * empty string under the empty key.
   */
  lemma BlankPairStoredEmpty(env: Env, k: string, v: string)
    requires k != "" && v != "" && AllSpace(k) && AllSpace(v)
    ensures ApplyLine(env, k + "=" + v) == env["" := ""]
  {
    assert '=' !in k && '=' !in v;
    PairStored(env, k, v);
    TrimAllSpace(k);
    TrimAllSpace(v);
  }

  /** A CRLF line end leaves a `\r` on the value, which the trim removes. */
  lemma CarriageReturnTrimmed(env: Env, k: string, v: string)
    requires k != "" && v != "" && '=' !in k && '=' !in v
    ensures ApplyLine(env, k + "=" + v + "\r") == env[Trim(k) := Trim(v)]
  {
    assert k + "=" + v + "\r" == k + "=" + (v + "\r");
    PairStored(env, k, v + "\r");
    TrimDropsTrailingSpace(v, '\r');
  }

  /** The last line for a key decides its value, whatever came before. */
  lemma LastLineWins(env: Env, lines: seq<string>, k: string, v: string)
    requires k != "" && v != "" && '=' !in k && '=' !in v
    ensures var r := ApplyLines(env, lines + [k + "=" + v]);
      Trim(k) in r && r[Trim(k)] == Trim(v)
  {
    var all := lines + [k + "=" + v];
    assert all[..|all| - 1] == lines;
    PairStored(ApplyLines(env, lines), k, v);
  }

  /** Every key read from the file is the trimmed key piece of one of its lines. */
  lemma {:induction false} KeysComeFromLines(lines: seq<string>)
    ensures forall key :: key in ApplyLines(map[], lines) ==>
      exists i :: 0 <= i < |lines| && key == Trim(Split(lines[i], '=')[0])
  {
    if lines != [] {
      var front := lines[..|lines| - 1];
      KeysComeFromLines(front);
      forall key | key in ApplyLines(map[], lines)
        ensures exists i :: 0 <= i < |lines| && key == Trim(Split(lines[i], '=')[0])
      {
        if key in ApplyLines(map[], front) {
          var i :| 0 <= i < |front| && key == Trim(Split(front[i], '=')[0]);
          assert lines[i] == front[i];
        } else {
          ApplyLineFrame(ApplyLines(map[], front), lines[|lines| - 1]);
        }
      }
    }
  }

  // ---------------------------------------------------------------------
  // Settings check

  const UrlKey := "VITE_SUPABASE_URL"
  const AnonKey := "VITE_SUPABASE_PUBLISHABLE_KEY"

  /** The script goes on only when both settings are present and non-empty. */
  function ConfigComplete(env: Env): (b: bool)
    ensures env == map[] ==> !b
    ensures b ==> UrlKey in env && AnonKey in env
  {
    UrlKey in env && env[UrlKey] != "" && AnonKey in env && env[AnonKey] != ""
  }

  lemma NoNewlineInPair(name: string, value: string)
    requires '\n' !in name && '\n' !in value
    ensures '\n' !in name + "=" + value
  {
    var line := name + "=" + value;
    forall i | 0 <= i < |line|
      ensures line[i] != '\n'
    {
      if i > |name| {
        assert line[i] == value[i - |name| - 1];
      }
    }
  }

  lemma ApplyTwoLines(env: Env, line1: string, line2: string)
    ensures ApplyLines(env, [line1, line2]) == ApplyLine(ApplyLine(env, line1), line2)
  {
    assert [line1, line2][..1] == [line1];
    assert ApplyLines(env, [line1]) == ApplyLine(env, line1) by {
      assert [line1][..0] == [];
    }
  }

  lemma SettingNamesHaveNoEquals()
    ensures '=' !in UrlKey && '=' !in AnonKey
  {
  }

  lemma SettingNamesTrimmed()
    ensures Trim(UrlKey) == UrlKey && Trim(AnonKey) == AnonKey
  {
    TrimUnpadded(UrlKey);
    TrimUnpadded(AnonKey);
  }

  /** Two well-formed lines for two different names store both values. */
  lemma TwoPairsStored(n1: string, v1: string, n2: string, v2: string)
    requires n1 != "" && v1 != "" && n2 != "" && v2 != ""
    requires '=' !in n1 && '=' !in v1 && '=' !in n2 && '=' !in v2
    requires Trim(n1) == n1 && Trim(n2) == n2 && n1 != n2
    ensures var r := ApplyLines(map[], [n1 + "=" + v1, n2 + "=" + v2]);
      n1 in r && r[n1] == Trim(v1) && n2 in r && r[n2] == Trim(v2)
  {
    ApplyTwoLines(map[], n1 + "=" + v1, n2 + "=" + v2);
    PairStored(map[], n1, v1);
    PairStored(ApplyLine(map[], n1 + "=" + v1), n2, v2);
  }

  lemma SplitTwoLines(line1: string, line2: string)
    requires '\n' !in line1 && '\n' !in line2
    ensures Split(line1 + "\n" + line2, '\n') == [line1, line2]
  {
    SplitAtFirst(line1, '\n', line2);
    assert Split(line2, '\n') == [line2];
  }

  /** The two setting lines with non-blank values fill in both settings. */
  lemma TwoSettingsComplete(url: string, key: string)
    requires '=' !in url && '=' !in key
    requires Trim(url) != "" && Trim(key) != ""
    ensures ConfigComplete(ApplyLines(map[], [UrlKey + "=" + url, AnonKey + "=" + key]))
  {
    assert |url| >= |Trim(url)| > 0 && |key| >= |Trim(key)| > 0;
    SettingNamesHaveNoEquals();
    SettingNamesTrimmed();
    assert |UrlKey| != |AnonKey|;
    TwoPairsStored(UrlKey, url, AnonKey, key);
  }

  /** A two-line `.env` with non-blank values for both settings is enough to go on. */
  lemma TwoLineFileIsComplete(url: string, key: string)
    requires '=' !in url && '\n' !in url && '=' !in key && '\n' !in key
    requires Trim(url) != "" && Trim(key) != ""
    ensures var file := UrlKey + "=" + url + "\n" + AnonKey + "=" + key;
      ConfigComplete(ApplyLines(map[], Split(file, '\n')))
  {
    var line1 := UrlKey + "=" + url;
    var line2 := AnonKey + "=" + key;
    NoNewlineInPair(UrlKey, url);
    NoNewlineInPair(AnonKey, key);
    assert UrlKey + "=" + url + "\n" + AnonKey + "=" + key == line1 + "\n" + line2;
    SplitTwoLines(line1, line2);
    TwoSettingsComplete(url, key);
  }

  // ---------------------------------------------------------------------
  // Bucket check and upload test

  const ProductImages := "product-images"

  datatype Bucket = Bucket(id: string, isPublic: bool)

  /** `buckets.find(bucket => bucket.id === id)`: the first bucket with that id. */
  function FindBucket(buckets: seq<Bucket>, id: string): (r: Option<Bucket>)
    ensures r.None? <==> forall b :: b in buckets ==> b.id != id
    ensures r.Some? ==> r.value.id == id && r.value in buckets
    ensures buckets != [] && buckets[0].id == id ==> r == Some(buckets[0])
  {
    if buckets == [] then None
    else if buckets[0].id == id then Some(buckets[0])
    else FindBucket(buckets[1..], id)
  }

  /** The first of several buckets with the same id is the one reported. */
  lemma {:induction false} FindBucketFirst(buckets: seq<Bucket>, id: string, i: nat)
    requires i < |buckets| && buckets[i].id == id
    requires forall j :: 0 <= j < i ==> buckets[j].id != id
    ensures FindBucket(buckets, id) == Some(buckets[i])
  {
    if i > 0 {
      FindBucketFirst(buckets[1..], id, i - 1);
    }
  }

  /** The hint printed after a failed test upload, chosen by substring of the error message. */
  function UploadHint(message: string): (h: Option<string>)
    ensures Contains(message, "bucket not found") ==> h == Some("The bucket needs to be created first")
    ensures !Contains(message, "bucket not found") && Contains(message, "permission denied") ==>
      h == Some("Check your RLS policies and admin role")
    ensures h.None? <==> !Contains(message, "bucket not found") && !Contains(message, "permission denied")
  {
    if Contains(message, "bucket not found") then Some("The bucket needs to be created first")
    else if Contains(message, "permission denied") then Some("Check your RLS policies and admin role")
    else None
  }

  /**
   * What `setupStorage` reports. `removeRequested` says that the removal of the
   * test file was asked for; the script ignores the answer to that request.
   */
  datatype Report =
    | ListFailed
    | Checked(bucketFound: bool, available: seq<string>, uploadOk: bool, hint: Option<string>, removeRequested: bool)

  function BucketIds(buckets: seq<Bucket>): (ids: seq<string>)
    ensures |ids| == |buckets|
    ensures forall i :: 0 <= i < |buckets| ==> ids[i] == buckets[i].id
  {
    if buckets == [] then [] else [buckets[0].id] + BucketIds(buckets[1..])
  }

  /**
   * `setupStorage`: list the buckets (stopping if that fails), look for the
   * product image bucket, then try a test upload and remove the test file
   * when it went through. `uploadError` is the upload's error message, if any.
   */
  method Setup(listing: Result<seq<Bucket>, string>, uploadError: Option<string>) returns (report: Report)
    ensures listing.Err? <==> report.ListFailed?
    ensures listing.Ok? ==>
      && report.bucketFound == FindBucket(listing.value, ProductImages).Some?
      && (report.bucketFound <==> exists b :: b in listing.value && b.id == ProductImages)
      && (!report.bucketFound ==> report.available == BucketIds(listing.value))
      && (report.uploadOk <==> uploadError.None?)
      && (report.removeRequested <==> uploadError.None?)
      && (uploadError.Some? ==> report.hint == UploadHint(uploadError.value))
      && (uploadError.None? ==> report.hint.None?)
  {
    if listing.Err? {
      return ListFailed;
    }
    var buckets := listing.value;
    var found := FindBucket(buckets, ProductImages);
    var available := if found.Some? then [] else BucketIds(buckets);
    if uploadError.Some? {
      var hint := UploadHint(uploadError.value);
      report := Checked(found.Some?, available, false, hint, false);
    } else {
      report := Checked(found.Some?, available, true, None, true);
    }
  }
}
