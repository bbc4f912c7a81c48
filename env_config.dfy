/**
 * The development-mode `.env` loader: each line `KEY=VALUE` of the file sets a process
 * environment variable, in file order, after trimming; blank lines and `#` comments are skipped.
 * Outside development nothing is read or set.
 */
module EnvConfig {
  import opened Common
  import opened Strings

  /**
   * The assignment one line makes: the trimmed line must be non-empty and not a comment; the key
   * is the text before its first '=', the value everything after it (rejoined with '='); both must
   * be non-empty, and both are trimmed again.
   */
  function ParseLine(line: string): Option<(string, string)> {
    var t := Trim(line);
    if t == "" || t[0] == '#' then None
    else
      var parts := Split(t, '=');
      var key, value := parts[0], Join(parts[1..], '=');
      if key == "" || value == "" then None else Some((Trim(key), Trim(value)))
  }

  /**
   * A line assigns exactly when its trimmed form is not a comment and has an '=' with text on
   * both sides; the assignment is the trimmed text before the first '=' and the trimmed text
   * after it.
   */
  lemma ParseLineFirstEquals(line: string)
    ensures var t := Trim(line);
      && (ParseLine(line).Some? <==>
            && t != "" && t[0] != '#'
            && FirstIndex(t, '=').Some? && 0 < FirstIndex(t, '=').value < |t| - 1)
      && (ParseLine(line).Some? ==>
            var i := FirstIndex(t, '=').value;
            ParseLine(line).value == (Trim(t[..i]), Trim(t[i + 1..])))
  {
    var t := Trim(line);
    if t != "" && t[0] != '#' {
      SplitHeadTail(t, '=');
      if FirstIndex(t, '=').None? {
        assert Join(Split(t, '=')[1..], '=') == "";
      }
    }
  }

  /** Every variable a line sets has a non-empty, trimmed name without '=' and a non-empty, trimmed value. */
  lemma AssignedNonEmpty(line: string)
    requires ParseLine(line).Some?
    ensures var (k, v) := ParseLine(line).value;
      && k != "" && v != "" && Trim(k) == k && Trim(v) == v && '=' !in k
  {
    var t := Trim(line);
    ParseLineFirstEquals(line);
    TrimShape(line);
    var i := FirstIndex(t, '=').value;
    var key, value := t[..i], t[i + 1..];
    assert key[0] == t[0] && value[|value| - 1] == t[|t| - 1];
    TrimEmptyIff(key);
    TrimEmptyIff(value);
    TrimIdempotent(key);
    TrimIdempotent(value);
    TrimInside(key);
  }

  /** The trimmed text is a piece of the original. */
  lemma TrimInside(s: string)
    ensures forall c :: c in Trim(s) ==> c in s
  {
    var a := TrimStart(s);
    assert forall c :: c in TrimEnd(a) ==> c in a;
    assert forall c :: c in a ==> c in s;
  }

  /** The assignment of each line, in order. */
  function Parsed(lines: seq<string>): (r: seq<Option<(string, string)>>)
    ensures |r| == |lines| && forall i :: 0 <= i < |lines| ==> r[i] == ParseLine(lines[i])
  {
    seq(|lines|, i requires 0 <= i < |lines| => ParseLine(lines[i]))
  }

  /** The environment after the assignments `assigns`, made in order (the last applied last). */
  function ApplyAssignments(env: map<string, string>, assigns: seq<Option<(string, string)>>): map<string, string>
    decreases |assigns|
  {
    if assigns == [] then env
    else
      var before := ApplyAssignments(env, assigns[..|assigns| - 1]);
      var a := assigns[|assigns| - 1];
      if a.None? then before else before[a.value.0 := a.value.1]
  }

  /** The environment after loading `lines`. */
  function Assign(env: map<string, string>, lines: seq<string>): map<string, string> {
    ApplyAssignments(env, Parsed(lines))
  }

  predicate Sets(a: Option<(string, string)>, k: string) {
    a.Some? && a.value.0 == k
  }

  lemma {:induction false} LastWinsDomain(env: map<string, string>, assigns: seq<Option<(string, string)>>, k: string)
    ensures (k in ApplyAssignments(env, assigns)) <==> (k in env || exists j :: 0 <= j < |assigns| && Sets(assigns[j], k))
    decreases |assigns|
  {
    if assigns != [] {
      var n := |assigns| - 1;
      LastWinsDomain(env, assigns[..n], k);
      assert forall j :: 0 <= j < n ==> assigns[..n][j] == assigns[j];
    }
  }

  lemma {:induction false} LastWinsValue(env: map<string, string>, assigns: seq<Option<(string, string)>>, k: string, j: nat)
    requires j < |assigns| && Sets(assigns[j], k)
    requires forall j' :: j < j' < |assigns| ==> !Sets(assigns[j'], k)
    ensures k in ApplyAssignments(env, assigns) && ApplyAssignments(env, assigns)[k] == assigns[j].value.1
    decreases |assigns|
  {
    var n := |assigns| - 1;
    if j < n {
      assert forall j' :: j < j' < n ==> assigns[..n][j'] == assigns[j'];
      LastWinsValue(env, assigns[..n], k, j);
    }
  }

  lemma {:induction false} LastWinsUntouched(env: map<string, string>, assigns: seq<Option<(string, string)>>, k: string)
    requires forall j :: 0 <= j < |assigns| ==> !Sets(assigns[j], k)
    ensures k in env ==> k in ApplyAssignments(env, assigns) && ApplyAssignments(env, assigns)[k] == env[k]
    ensures k !in env ==> k !in ApplyAssignments(env, assigns)
    decreases |assigns|
  {
    if assigns != [] {
      var n := |assigns| - 1;
      assert forall j :: 0 <= j < n ==> assigns[..n][j] == assigns[j];
      LastWinsUntouched(env, assigns[..n], k);
    }
  }

  /**
   * The last assignment wins: a variable is set after loading exactly when it was set before or
   * some line assigns it; its value is that of the last line that assigns it, or the old value
   * when no line does.
   */
  lemma LastWins(env: map<string, string>, lines: seq<string>, k: string)
    ensures (k in Assign(env, lines)) <==> (k in env || exists j :: 0 <= j < |lines| && Sets(ParseLine(lines[j]), k))
    ensures forall j :: 0 <= j < |lines| && Sets(ParseLine(lines[j]), k)
                        && (forall j' :: j < j' < |lines| ==> !Sets(ParseLine(lines[j']), k))
              ==> k in Assign(env, lines) && Assign(env, lines)[k] == ParseLine(lines[j]).value.1
    ensures (forall j :: 0 <= j < |lines| ==> !Sets(ParseLine(lines[j]), k)) ==>
              (k in env ==> k in Assign(env, lines) && Assign(env, lines)[k] == env[k])
  {
    var assigns := Parsed(lines);
    LastWinsDomain(env, assigns, k);
    forall j | 0 <= j < |lines| && Sets(ParseLine(lines[j]), k)
               && (forall j' :: j < j' < |lines| ==> !Sets(ParseLine(lines[j']), k))
      ensures k in Assign(env, lines) && Assign(env, lines)[k] == ParseLine(lines[j]).value.1
    {
      LastWinsValue(env, assigns, k, j);
    }
    if forall j :: 0 <= j < |lines| ==> !Sets(ParseLine(lines[j]), k) {
      LastWinsUntouched(env, assigns, k);
    }
  }

  /** The process environment `Deno.env`, which the loader changes in place. */
  class ProcessEnv {
    var vars: map<string, string>

    constructor (initial: map<string, string>)
      ensures vars == initial
    {
      vars := initial;
    }

    /**
     * `loadEnvironment`: in development (`DENO_ENV` is "development") the `.env` file, read by the
     * caller as `file`, is applied line by line; a failed read is passed on as the error, having
     * set nothing.  Otherwise nothing changes.
     */
    method LoadEnvironment(file: Result<string, string>) returns (r: Result<(), string>)
      modifies this
      ensures "DENO_ENV" !in old(vars) || old(vars)["DENO_ENV"] != "development" ==> r == Ok(()) && vars == old(vars)
      ensures "DENO_ENV" in old(vars) && old(vars)["DENO_ENV"] == "development" ==>
        if file.Err? then r == Err(file.error) && vars == old(vars)
        else r == Ok(()) && vars == Assign(old(vars), Split(file.value, '\n'))
    {
      if !("DENO_ENV" in vars && vars["DENO_ENV"] == "development") {
        return Ok(());
      }
      if file.Err? {
        return Err(file.error);
      }
      var lines := Split(file.value, '\n');
      var i := 0;
      while i < |lines|
        invariant 0 <= i <= |lines|
        invariant vars == ApplyAssignments(old(vars), Parsed(lines)[..i])
      {
        assert Parsed(lines)[..i + 1][..i] == Parsed(lines)[..i];
        var a := ParseLine(lines[i]);
        if a.Some? {
          vars := vars[a.value.0 := a.value.1];
        }
        i := i + 1;
      }
      assert Parsed(lines)[..|lines|] == Parsed(lines);
      r := Ok(());
    }
  }
}
