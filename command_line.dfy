/**
 * How the external tool reads its command line: arguments are separated
 * by spaces outside double quotes, and a double quote only toggles the
 * quoted state and is not part of the argument. This is the quoting rule
 * of the Windows command-line convention without its backslash escapes.
 */
module CommandLine {

  /** Text that reads as part of one argument whatever the quoting state. */
  predicate Plain(s: string) {
    ' ' !in s && '"' !in s
  }

  /**
   * Splits `s`; `quoted` is the quoting state, `cur` the text of the
   * argument being read and `open` whether one has started.
   */
  function Scan(s: string, quoted: bool, cur: string, open: bool): seq<string>
    decreases |s|
  {
    if s == [] then (if open then [cur] else [])
    else if s[0] == '"' then Scan(s[1..], !quoted, cur, true)
    else if s[0] == ' ' && !quoted then (if open then [cur] else []) + Scan(s[1..], false, "", false)
    else Scan(s[1..], quoted, cur + [s[0]], true)
  }

  /** The argument vector the tool receives for the argument string `s`. */
  function Arguments(s: string): seq<string> {
    Scan(s, false, "", false)
  }

  /** Plain text is appended to the current argument. */
  lemma {:induction false} ScanPlain(p: string, rest: string, quoted: bool, cur: string, open: bool)
    requires Plain(p)
    ensures Scan(p + rest, quoted, cur, open) == Scan(rest, quoted, cur + p, open || p != [])
    decreases |p|
  {
    if p == [] {
      assert p + rest == rest;
      assert cur + p == cur;
    } else {
      assert (p + rest)[0] == p[0];
      assert (p + rest)[1..] == p[1..] + rest;
      ScanPlain(p[1..], rest, quoted, cur + [p[0]], true);
      assert cur + [p[0]] + p[1..] == cur + p;
    }
  }

  /** Inside quotes, everything up to the next quote is appended, spaces included. */
  lemma {:induction false} ScanQuoted(t: string, rest: string, cur: string)
    requires '"' !in t
    ensures Scan(t + rest, true, cur, true) == Scan(rest, true, cur + t, true)
    decreases |t|
  {
    if t == [] {
      assert t + rest == rest;
      assert cur + t == cur;
    } else {
      assert (t + rest)[0] == t[0];
      assert (t + rest)[1..] == t[1..] + rest;
      ScanQuoted(t[1..], rest, cur + [t[0]]);
      assert cur + [t[0]] + t[1..] == cur + t;
    }
  }

  /** A plain word followed by a space is one argument. */
  lemma PlainWord(p: string, rest: string)
    requires Plain(p) && p != []
    ensures Scan(p + " " + rest, false, "", false) == [p] + Scan(rest, false, "", false)
  {
    ScanPlain(p, " " + rest, false, "", false);
    assert p + " " + rest == p + (" " + rest);
    assert "" + p == p;
    assert (" " + rest)[1..] == rest;
  }

  /** `key"value"` followed by a space (or by nothing) is the one argument `key` + `value`. */
  lemma QuotedWord(key: string, value: string, rest: string)
    requires Plain(key) && key != [] && '"' !in value
    ensures Scan(key + "\"" + value + "\"" + " " + rest, false, "", false)
         == [key + value] + Scan(rest, false, "", false)
    ensures Scan(key + "\"" + value + "\"", false, "", false) == [key + value]
  {
    var tail := "\"" + value + "\"";
    ScanPlain(key, tail + " " + rest, false, "", false);
    assert key + "\"" + value + "\"" + " " + rest == key + (tail + " " + rest);
    assert "" + key == key;
    assert (tail + " " + rest)[1..] == value + ("\"" + " " + rest);
    ScanQuoted(value, "\"" + " " + rest, key);
    assert ("\"" + " " + rest)[1..] == " " + rest;
    assert (" " + rest)[1..] == rest;

    ScanPlain(key, tail, false, "", false);
    assert key + "\"" + value + "\"" == key + tail;
    assert tail[1..] == value + "\"";
    ScanQuoted(value, "\"", key);
    assert "\""[1..] == "";
  }
}
