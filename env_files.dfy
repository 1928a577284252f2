/** The `.env` readers of the maintenance scripts: `read_env` (check_env.py,
    and the identical copies in check_jwks.py and check_jwks_urllib.py), the
    URL comparison of check_env.py, and `read_var` with the report of
    compare_envs.py. A file is the sequence of its lines as iterating over
    it yields them (each with its line break); a missing file is None. */
module EnvFiles {
  import opened Basics

  type Env = map<string, string>

  // ---------------------------------------------------------------------------
  // read_env

  /** What one line contributes (check_env.py:8-12): nothing when, after
      `strip`, it is blank, a `#` comment or has no `=`; otherwise the text
      before its first `=` and everything after it, neither trimmed further. */
  function ParseEnvLine(line: string): (r: Option<(string, string)>)
    ensures var s := Strip(line);
            r.None? <==> s == [] || StartsWith(s, "#") || '=' !in s
    ensures r.Some? ==> var s := Strip(line);
                        s == r.value.0 + "=" + r.value.1 && '=' !in r.value.0
  {
    var s := Strip(line);
    if s == [] || StartsWith(s, "#") then None else SplitFirst(s, '=')
  }

  /** What each line of a file contributes, in file order. */
  function Parsed(lines: seq<string>): (r: seq<Option<(string, string)>>)
    ensures |r| == |lines|
  {
    seq(|lines|, i requires 0 <= i < |lines| => ParseEnvLine(lines[i]))
  }

  /** The dictionary built from line contributions, later keys overriding. */
  function EnvFrom(entries: seq<Option<(string, string)>>): Env {
    if |entries| == 0 then map[]
    else
      var d := EnvFrom(entries[..|entries| - 1]);
      match entries[|entries| - 1]
      case None => d
      case Some(kv) => d[kv.0 := kv.1]
  }

  /** The dictionary `read_env` builds from the lines of an existing file. */
  function EnvOf(lines: seq<string>): Env {
    EnvFrom(Parsed(lines))
  }

  lemma ParsedAppend(a: seq<string>, b: seq<string>)
    ensures Parsed(a + b) == Parsed(a) + Parsed(b)
  {
    var l, r := Parsed(a + b), Parsed(a) + Parsed(b);
    forall i | 0 <= i < |l| ensures l[i] == r[i] {
      if i < |a| {
        assert (a + b)[i] == a[i];
      } else {
        assert (a + b)[i] == b[i - |a|];
      }
    }
  }

  lemma {:induction false} EnvFromAppend(a: seq<Option<(string, string)>>, b: seq<Option<(string, string)>>)
    ensures EnvFrom(a + b) == EnvFrom(a) + EnvFrom(b)
  {
    if |b| == 0 {
      assert a + b == a;
    } else {
      var init := b[..|b| - 1];
      EnvFromAppend(a, init);
      assert (a + b)[..|a + b| - 1] == a + init;
      assert (a + b)[|a + b| - 1] == b[|b| - 1];
    }
  }

  /** Reading two pieces of a file one after the other: every key of the
      second piece overrides the first's. */
  lemma EnvOfAppend(a: seq<string>, b: seq<string>)
    ensures EnvOf(a + b) == EnvOf(a) + EnvOf(b)
  {
    ParsedAppend(a, b);
    EnvFromAppend(Parsed(a), Parsed(b));
  }

  lemma {:induction false} EnvFromKeys(entries: seq<Option<(string, string)>>, k: string)
    ensures k in EnvFrom(entries) <==>
            exists i :: 0 <= i < |entries| && entries[i].Some? && entries[i].value.0 == k
  {
    if |entries| > 0 {
      var init := entries[..|entries| - 1];
      EnvFromKeys(init, k);
      assert forall i :: 0 <= i < |init| ==> init[i] == entries[i];
    }
  }

  /** A key is defined iff some line parses with that key. */
  lemma EnvKeys(lines: seq<string>, k: string)
    ensures k in EnvOf(lines) <==>
            exists i :: 0 <= i < |lines| && ParseEnvLine(lines[i]).Some? && ParseEnvLine(lines[i]).value.0 == k
  {
    EnvFromKeys(Parsed(lines), k);
    var p := Parsed(lines);
    assert forall i :: 0 <= i < |lines| ==> p[i] == ParseEnvLine(lines[i]);
  }

  lemma {:induction false} EnvFromLastWins(entries: seq<Option<(string, string)>>, i: nat, k: string, v: string)
    requires i < |entries| && entries[i] == Some((k, v))
    requires forall j :: i < j < |entries| ==> entries[j].None? || entries[j].value.0 != k
    ensures k in EnvFrom(entries) && EnvFrom(entries)[k] == v
  {
    if i < |entries| - 1 {
      var init := entries[..|entries| - 1];
      assert forall j :: 0 <= j < |init| ==> init[j] == entries[j];
      EnvFromLastWins(init, i, k, v);
    }
  }

  /** A key's value comes from the last line that defines it. */
  lemma EnvLastWins(lines: seq<string>, i: nat, k: string, v: string)
    requires i < |lines| && ParseEnvLine(lines[i]) == Some((k, v))
    requires forall j :: i < j < |lines| ==> ParseEnvLine(lines[j]).None? || ParseEnvLine(lines[j]).value.0 != k
    ensures k in EnvOf(lines) && EnvOf(lines)[k] == v
  {
    var p := Parsed(lines);
    assert forall j :: 0 <= j < |lines| ==> p[j] == ParseEnvLine(lines[j]);
    EnvFromLastWins(p, i, k, v);
  }

  /** One more line read. */
  lemma EnvOfSnoc(lines: seq<string>, line: string)
    ensures EnvOf(lines + [line]) == match ParseEnvLine(line)
                                     case None => EnvOf(lines)
                                     case Some(kv) => EnvOf(lines)[kv.0 := kv.1]
  {
    var p := Parsed(lines + [line]);
    assert p[..|lines|] == Parsed(lines);
  }

  /** `read_env` (check_env.py:3-15): None for a missing file, which differs
      from the empty dictionary of an empty file. */
  method ReadEnv(file: Option<seq<string>>) returns (r: Option<Env>)
    ensures file.None? ==> r.None?
    ensures file.Some? ==> r == Some(EnvOf(file.value))
  {
    if file.None? {
      return None;
    }
    var lines := file.value;
    var d: Env := map[];
    var i := 0;
    while i < |lines|
      invariant 0 <= i <= |lines|
      invariant d == EnvOf(lines[..i])
    {
      var line := Strip(lines[i]);
      var entry: Option<(string, string)> := None;
      if line != [] && !StartsWith(line, "#") && '=' in line {
        entry := SplitFirst(line, '=');
      }
      assert entry == ParseEnvLine(lines[i]);
      if entry.Some? {
        d := d[entry.value.0 := entry.value.1];
      }
      assert lines[..i + 1] == lines[..i] + [lines[i]];
      EnvOfSnoc(lines[..i], lines[i]);
      i := i + 1;
    }
    assert lines[..i] == lines;
    r := Some(d);
  }

  /** The dictionary a script obtains from a file. */
  function LoadedEnv(file: Option<seq<string>>): Option<Env> {
    if file.None? then None else Some(EnvOf(file.value))
  }

  // ---------------------------------------------------------------------------
  // check_env.py

  /** `if backend`: a missing file and an empty dictionary are both false. */
  predicate EnvTruthy(d: Option<Env>) {
    d.Some? && |d.value| > 0
  }

  /** `print("...", value)` of an optional string: None prints as "None". */
  function Shown(v: Option<string>): string {
    if v.Some? then v.value else "None"
  }

  const MATCH_LINE := "MATCH: URLs are identical."
  const MISMATCH_LINE := "MISMATCH: URLs are different!"

  /** Lines 24-29: the stripped URLs, "" for a missing one, compared. */
  function UrlVerdict(backend: Env, frontend: Env): (line: string)
    ensures line == MATCH_LINE <==>
            Strip(GetOr(backend, "SUPABASE_URL", "")) == Strip(GetOr(frontend, "NEXT_PUBLIC_SUPABASE_URL", ""))
    ensures line == MATCH_LINE || line == MISMATCH_LINE
  {
    if Strip(GetOr(backend, "SUPABASE_URL", "")) == Strip(GetOr(frontend, "NEXT_PUBLIC_SUPABASE_URL", ""))
    then MATCH_LINE else MISMATCH_LINE
  }

  /** Two files that both define something but neither URL compare equal. */
  lemma MissingUrlsMatch(backend: Env, frontend: Env)
    requires "SUPABASE_URL" !in backend && "NEXT_PUBLIC_SUPABASE_URL" !in frontend
    ensures UrlVerdict(backend, frontend) == MATCH_LINE
  {
  }

  /** URLs that differ only in surrounding whitespace compare equal. */
  lemma PaddedUrlsMatch(backend: Env, frontend: Env, url: string)
    requires "SUPABASE_URL" in backend && "NEXT_PUBLIC_SUPABASE_URL" in frontend
    requires Strip(backend["SUPABASE_URL"]) == url && Strip(frontend["NEXT_PUBLIC_SUPABASE_URL"]) == url
    ensures UrlVerdict(backend, frontend) == MATCH_LINE
  {
  }

  /** check_env.py:17-29: two URL lines, then a verdict line only when both
      dictionaries are non-empty. */
  method CheckEnv(backendFile: Option<seq<string>>, frontendFile: Option<seq<string>>)
    returns (output: seq<string>)
    ensures var b, f := LoadedEnv(backendFile), LoadedEnv(frontendFile);
            |output| == (if EnvTruthy(b) && EnvTruthy(f) then 3 else 2)
            && output[0] == "Backend URL: " + (if EnvTruthy(b) then Shown(Lookup(b.value, "SUPABASE_URL")) else "Not found")
            && output[1] == "Frontend URL: "
                            + (if EnvTruthy(f) then Shown(Lookup(f.value, "NEXT_PUBLIC_SUPABASE_URL")) else "Not found")
            && (|output| == 3 ==> output[2] == UrlVerdict(b.value, f.value))
  {
    var backend := ReadEnv(backendFile);
    var frontend := ReadEnv(frontendFile);
    assert backend == LoadedEnv(backendFile) && frontend == LoadedEnv(frontendFile);
    var bLine := if EnvTruthy(backend) then Shown(Lookup(backend.value, "SUPABASE_URL")) else "Not found";
    var fLine := if EnvTruthy(frontend) then Shown(Lookup(frontend.value, "NEXT_PUBLIC_SUPABASE_URL")) else "Not found";
    if EnvTruthy(backend) && EnvTruthy(frontend) {
      var verdict := UrlVerdict(backend.value, frontend.value);
      output := ["Backend URL: " + bLine, "Frontend URL: " + fLine, verdict];
    } else {
      output := ["Backend URL: " + bLine, "Frontend URL: " + fLine];
    }
  }

  // ---------------------------------------------------------------------------
  // compare_envs.py

  /** The first line, in file order, that starts with `name`, unstripped. */
  function FirstPrefixed(lines: seq<string>, name: string): (r: Option<nat>)
    ensures r.None? <==> forall i :: 0 <= i < |lines| ==> !StartsWith(lines[i], name)
    ensures r.Some? ==> r.value < |lines| && StartsWith(lines[r.value], name)
                        && forall j :: 0 <= j < r.value ==> !StartsWith(lines[j], name)
  {
    if |lines| == 0 then None
    else if StartsWith(lines[0], name) then Some(0)
    else match FirstPrefixed(lines[1..], name)
      case None => None
      case Some(i) =>
        assert forall j :: 1 <= j <= i ==> lines[j] == lines[1..][j - 1];
        Some(i + 1)
  }

  /** The value `read_var` gives for a line it selected. */
  function VarValue(line: string): Response<string> {
    match SplitFirst(line, '=')
    case None => Crashed(INDEX_ERROR)
    case Some(kv) => Ok(Strip(kv.1))
  }

  /** What `read_var` returns: for an existing file, the value of the
      first line starting with `name`, or "Var Not Found" when none does. */
  function VarLookup(file: Option<seq<string>>, name: string): (r: Response<string>)
    ensures file.None? ==> r == Ok("File Not Found")
    ensures file.Some? && FirstPrefixed(file.value, name).None? ==> r == Ok("Var Not Found")
    ensures file.Some? && FirstPrefixed(file.value, name).Some? ==>
              r == VarValue(file.value[FirstPrefixed(file.value, name).value])
  {
    if file.None? then Ok("File Not Found")
    else match FirstPrefixed(file.value, name)
      case None => Ok("Var Not Found")
      case Some(i) => VarValue(file.value[i])
  }

  /** The first prefixed line is the one that starts with `name` after
      lines that do not. */
  lemma FirstPrefixedAt(lines: seq<string>, name: string, i: nat)
    requires i < |lines| && StartsWith(lines[i], name)
    requires forall j :: 0 <= j < i ==> !StartsWith(lines[j], name)
    ensures FirstPrefixed(lines, name) == Some(i)
  {
  }

  /** A selected line without `=` makes `read_var` raise; one with `=` gives
      the stripped text after its first `=`, later `=` included. */
  lemma VarValueMeaning(line: string)
    ensures '=' !in line <==> VarValue(line) == Crashed(INDEX_ERROR)
    ensures '=' in line ==> exists k, v :: line == k + "=" + v && '=' !in k && VarValue(line) == Ok(Strip(v))
  {
  }

  /** `read_var` (compare_envs.py:3-11): the stripped text after the first
      `=` of the first line starting with `name`; "Var Not Found" when no
      line does; "File Not Found" for a missing file; an escaping
      `IndexError` when the matching line has no `=`. */
  method ReadVar(file: Option<seq<string>>, name: string) returns (r: Response<string>)
    ensures r == VarLookup(file, name)
  {
    if file.None? {
      return Ok("File Not Found");
    }
    var lines := file.value;
    var i := 0;
    while i < |lines|
      invariant 0 <= i <= |lines|
      invariant forall j :: 0 <= j < i ==> !StartsWith(lines[j], name)
    {
      if StartsWith(lines[i], name) {
        FirstPrefixedAt(lines, name, i);
        var parts := SplitFirst(lines[i], '=');
        if parts.None? {
          return Crashed(INDEX_ERROR);
        }
        return Ok(Strip(parts.value.1));
      }
      i := i + 1;
    }
    r := Ok("Var Not Found");
  }

  /** Splitting at the first `=` after a key without `=` gives the key and
      everything after it. */
  lemma {:induction false} SplitAfterKey(k: string, v: string)
    requires '=' !in k
    ensures SplitFirst(k + "=" + v, '=') == Some((k, v))
  {
    var s := k + "=" + v;
    IndexAfterKey(k, v);
    assert s[..|k|] == k && s[|k| + 1..] == v;
  }

  lemma {:induction false} IndexAfterKey(k: string, v: string)
    requires '=' !in k
    ensures IndexOf(k + "=" + v, '=') == Some(|k|)
  {
    var s := k + "=" + v;
    if |k| > 0 {
      assert s[1..] == k[1..] + "=" + v;
      assert k == [k[0]] + k[1..];
      IndexAfterKey(k[1..], v);
    }
  }

  /** The prefix test also selects a longer name, so `SUPABASE_URL_X=` is
      read for `SUPABASE_URL` when it comes first. */
  lemma LongerNameIsSelected(lines: seq<string>, rest: seq<string>, v: string)
    requires lines == ["SUPABASE_URL_X=" + v] + rest
    ensures VarLookup(Some(lines), "SUPABASE_URL") == Ok(Strip(v))
  {
    assert lines[0][..|"SUPABASE_URL"|] == "SUPABASE_URL";
    assert lines[0] == "SUPABASE_URL_X" + "=" + v;
    SplitAfterKey("SUPABASE_URL_X", v);
  }

  /** A line that starts with a space is not selected. */
  lemma IndentedLineIsSkipped(name: string, line: string)
    requires |name| > 0 && name[0] != ' ' && |line| > 0 && line[0] == ' '
    ensures !StartsWith(line, name)
  {
    if |name| <= |line| {
      assert line[..|name|][0] == line[0];
    }
  }

  /** compare_envs.py:16-20. */
  function Report(backendUrl: string, frontendUrl: string): string {
    "\nBackend SUPABASE_URL: " + backendUrl + "\nFrontend NEXT_PUBLIC_SUPABASE_URL: " + frontendUrl
    + "\nMatch: " + BoolToString(backendUrl == frontendUrl) + "\n"
  }

  /** The whole script: the backend file is read first, so its `IndexError`
      is the one that escapes when both files would raise. */
  method CompareEnvs(backendFile: Option<seq<string>>, frontendFile: Option<seq<string>>)
    returns (r: Response<string>)
    ensures var b, f := VarLookup(backendFile, "SUPABASE_URL"), VarLookup(frontendFile, "NEXT_PUBLIC_SUPABASE_URL");
            (!b.Ok? ==> r == b)
            && (b.Ok? && !f.Ok? ==> r == f)
            && (b.Ok? && f.Ok? ==> r == Ok(Report(b.value, f.value)))
  {
    var b := ReadVar(backendFile, "SUPABASE_URL");
    if !b.Ok? {
      return b;
    }
    var f := ReadVar(frontendFile, "NEXT_PUBLIC_SUPABASE_URL");
    if !f.Ok? {
      return f;
    }
    r := Ok(Report(b.value, f.value));
  }

  /** Equality is on the raw texts: two missing files, or two missing
      variables, report a match. */
  lemma SentinelsMatch(sentinel: string)
    ensures Report(sentinel, sentinel)
            == "\nBackend SUPABASE_URL: " + sentinel + "\nFrontend NEXT_PUBLIC_SUPABASE_URL: " + sentinel
               + "\nMatch: True\n"
  {
  }
}
