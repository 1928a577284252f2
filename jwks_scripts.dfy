/** The JWKS diagnostics scripts check_jwks.py and check_jwks_urllib.py: read
    `SUPABASE_URL` from the backend `.env`, fetch the key set, list the key
    ids and report whether the expected id is among them. The two scripts
    differ only in their HTTP client, which is the `JwksReply` given here. */
module JwksScripts {
  import opened Basics
  import opened EnvFiles

  /** The key id the scripts look for. */
  const TARGET_KID := "R1dWxhG0rDzYWclk"
  const JWKS_PATH := "/auth/v1/.well-known/jwks.json"
  const NO_URL_LINE := "No SUPABASE_URL found in backend .env"
  const SUCCESS_LINE := "SUCCESS: Target KID " + TARGET_KID + " FOUND in JWKS."
  const FAILURE_LINE := "FAILURE: Target KID " + TARGET_KID + " NOT FOUND in JWKS."

  /** A key of the set, as a JSON object of string members. */
  type JsonKey = map<string, string>

  /** What the fetch gives: a status and the `"keys"` member (None when the
      body has none), or an exception, raised by the client, by decoding the
      body, or (with urllib) for an error status. */
  datatype JwksReply = Reply(status: nat, keys: Option<seq<JsonKey>>) | Failure(message: string)

  /** `[k.get("kid") for k in keys]`. */
  function KidsOf(keys: seq<JsonKey>): (r: seq<Option<string>>)
    ensures |r| == |keys|
    ensures forall i :: 0 <= i < |keys| ==> r[i] == Lookup(keys[i], "kid")
  {
    seq(|keys|, i requires 0 <= i < |keys| => Lookup(keys[i], "kid"))
  }

  /** `sep.join(parts)`. */
  function Join(sep: string, parts: seq<string>): string {
    if |parts| == 0 then ""
    else if |parts| == 1 then parts[0]
    else parts[0] + sep + Join(sep, parts[1..])
  }

  /** The index of the first absent kid. */
  function FirstNone(kids: seq<Option<string>>): (r: Option<nat>)
    ensures r.None? <==> forall i :: 0 <= i < |kids| ==> kids[i].Some?
    ensures r.Some? ==> r.value < |kids| && kids[r.value].None?
                        && forall j :: 0 <= j < r.value ==> kids[j].Some?
  {
    if |kids| == 0 then None
    else if kids[0].None? then Some(0)
    else match FirstNone(kids[1..])
      case None => None
      case Some(i) =>
        assert forall j :: 1 <= j <= i ==> kids[j] == kids[1..][j - 1];
        Some(i + 1)
  }

  datatype JoinResult = JoinedText(text: string) | JoinTypeError(message: string)

  /** `", ".join(kids)`: the ids separated by ", " when every key has one;
      otherwise the `TypeError` naming the first key without one. */
  function JoinKids(kids: seq<Option<string>>): (r: JoinResult)
    ensures r.JoinedText? <==> forall i :: 0 <= i < |kids| ==> kids[i].Some?
    ensures r.JoinedText? ==> r.text == Join(", ", seq(|kids|, i requires 0 <= i < |kids| => kids[i].value))
    ensures r.JoinTypeError? ==>
              exists i :: 0 <= i < |kids| && kids[i].None? && (forall j :: 0 <= j < i ==> kids[j].Some?)
                          && r.message == "sequence item " + NatToString(i) + ": expected str instance, NoneType found"
  {
    match FirstNone(kids)
    case Some(i) => JoinTypeError("sequence item " + NatToString(i) + ": expected str instance, NoneType found")
    case None => JoinedText(Join(", ", seq(|kids|, i requires 0 <= i < |kids| => kids[i].value)))
  }

  /** `backend.get("SUPABASE_URL") if backend else None`, kept only when it
      is a non-empty text (`if url:`). */
  function ScriptUrl(backend: Option<Env>): (r: Option<string>)
    ensures r.Some? <==> EnvTruthy(backend) && "SUPABASE_URL" in backend.value && backend.value["SUPABASE_URL"] != ""
    ensures r.Some? ==> r.value == backend.value["SUPABASE_URL"]
  {
    if EnvTruthy(backend) && "SUPABASE_URL" in backend.value && backend.value["SUPABASE_URL"] != ""
    then Some(backend.value["SUPABASE_URL"]) else None
  }

  /** The lines the script appends after its fetch line. */
  function FetchLines(reply: JwksReply): seq<string> {
    match reply
    case Failure(m) => ["Exception fetching JWKS: " + m]
    case Reply(status, field) =>
      if status != 200 then ["Error fetching JWKS: " + NatToString(status)]
      else
        var keys := if field.Some? then field.value else [];
        var found := "Found " + NatToString(|keys|) + " keys.";
        match JoinKids(KidsOf(keys))
        case JoinTypeError(m) => [found, "Exception fetching JWKS: " + m]
        case JoinedText(t) =>
          [found, "KIDs: " + t, if Some(TARGET_KID) in KidsOf(keys) then SUCCESS_LINE else FAILURE_LINE]
  }

  /** The fetch part of the script (check_jwks.py:27-43,
      check_jwks_urllib.py:27-44). */
  method FetchReport(reply: JwksReply) returns (lines: seq<string>)
    ensures lines == FetchLines(reply)
  {
    lines := [];
    match reply {
      case Failure(m) =>
        lines := lines + ["Exception fetching JWKS: " + m];
      case Reply(status, field) =>
        if status == 200 {
          var keys := if field.Some? then field.value else [];
          var kids := KidsOf(keys);
          lines := lines + ["Found " + NatToString(|keys|) + " keys."];
          match JoinKids(kids) {
            case JoinTypeError(m) =>
              lines := lines + ["Exception fetching JWKS: " + m];
            case JoinedText(t) =>
              lines := lines + ["KIDs: " + t];
              if Some(TARGET_KID) in kids {
                lines := lines + [SUCCESS_LINE];
              } else {
                lines := lines + [FAILURE_LINE];
              }
          }
        } else {
          lines := lines + ["Error fetching JWKS: " + NatToString(status)];
        }
    }
  }

  /** The whole script (check_jwks.py:19-48, check_jwks_urllib.py:19-49): the
      lines of the debug file, which is their "\n"-join. Without a URL, only
      the notice; otherwise the fetch line followed by the fetch report. */
  method CheckJwks(envFile: Option<seq<string>>, reply: JwksReply) returns (output: seq<string>)
    ensures ScriptUrl(LoadedEnv(envFile)).None? ==> output == [NO_URL_LINE]
    ensures ScriptUrl(LoadedEnv(envFile)).Some? ==>
              output == ["Fetching from: " + (ScriptUrl(LoadedEnv(envFile)).value + JWKS_PATH)] + FetchLines(reply)
  {
    var backend := ReadEnv(envFile);
    var url := ScriptUrl(backend);
    if url.None? {
      output := [NO_URL_LINE];
      return;
    }
    var jwksUrl := url.value + JWKS_PATH;
    output := ["Fetching from: " + jwksUrl];
    var rest := FetchReport(reply);
    output := output + rest;
  }

  /** The report says SUCCESS exactly when the fetch answered 200, every key
      has an id, and the target id is one of them. */
  lemma SuccessIff(reply: JwksReply)
    ensures SUCCESS_LINE in FetchLines(reply)
            <==> reply.Reply? && reply.status == 200
                 && var keys := if reply.keys.Some? then reply.keys.value else [];
                    (forall i :: 0 <= i < |keys| ==> "kid" in keys[i])
                    && Some(TARGET_KID) in KidsOf(keys)
  {
    var lines := FetchLines(reply);
    assert SUCCESS_LINE[0] == 'S';
    forall x: string ensures ("Exception fetching JWKS: " + x)[0] == 'E' && ("Error fetching JWKS: " + x)[0] == 'E'
                             && ("Found " + x)[0] == 'F' && ("KIDs: " + x)[0] == 'K' {
    }
    assert FAILURE_LINE[0] == 'F';
    if reply.Reply? && reply.status == 200 {
      var keys := if reply.keys.Some? then reply.keys.value else [];
      var kids := KidsOf(keys);
      assert (forall i :: 0 <= i < |keys| ==> "kid" in keys[i]) <==> (forall i :: 0 <= i < |kids| ==> kids[i].Some?);
    }
  }

  /** SUCCESS needs every key to carry an id: a key without one makes the
      join raise before the target test. */
  lemma SuccessNeedsAllKids(keys: seq<JsonKey>)
    requires exists i :: 0 <= i < |keys| && "kid" !in keys[i]
    ensures JoinKids(KidsOf(keys)).JoinTypeError?
  {
    var i :| 0 <= i < |keys| && "kid" !in keys[i];
    assert KidsOf(keys)[i].None?;
  }

  /** The target is found iff some key's "kid" member is the target id. */
  lemma TargetFoundMeaning(keys: seq<JsonKey>)
    ensures Some(TARGET_KID) in KidsOf(keys) <==> exists i :: 0 <= i < |keys| && Lookup(keys[i], "kid") == Some(TARGET_KID)
  {
    var kids := KidsOf(keys);
    if Some(TARGET_KID) in kids {
      var i :| 0 <= i < |kids| && kids[i] == Some(TARGET_KID);
    }
  }

  /** An empty key set lists no ids and never finds the target. */
  lemma EmptyKeySet()
    ensures JoinKids(KidsOf([])) == JoinedText("")
    ensures Some(TARGET_KID) !in KidsOf([])
  {
  }
}
