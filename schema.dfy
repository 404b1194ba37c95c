/**
 * The part of yup's string schema that the forms of the blog use: a field is a
 * list of tests, and the value passes when every test passes. yup runs the
 * whitelist checks (`oneOf`) first and the ordinary tests only when every
 * whitelist check passes; within each group it runs every test in declaration
 * order, and react-hook-form's resolver keeps the first error of each field.
 */
module Schema {
  import opened Wrappers

  /** The format checks whose regular expressions live inside yup. */
  datatype Formats = Formats(isUrl: string -> bool, isEmail: string -> bool)

  /** The character classes used in a lookahead `(?=.*[...])`. */
  datatype CharClass = Lower | Upper | Digit

  datatype Rule =
    | Required(message: string)
    | Min(limit: nat, message: string)
    | Max(limit: nat, message: string)
    | Url(message: string)
    | Email(message: string)
      /** `.matches(/^(?=.*k1)(?=.*k2).../)`: one lookahead per class. */
    | Lookaheads(classes: seq<CharClass>, message: string)
      /** `.oneOf([...])`, with every `yup.ref` already resolved to its value. */
    | OneOf(allowed: seq<string>, message: string)

  predicate InClass(c: char, k: CharClass) {
    match k
    case Lower => 'a' <= c <= 'z'
    case Upper => 'A' <= c <= 'Z'
    case Digit => '0' <= c <= '9'
  }

  /** The characters that `.` in a JavaScript regular expression does not match. */
  predicate IsLineTerminator(c: char) {
    c == '\n' || c == '\r' || c == '\U{2028}' || c == '\U{2029}'
  }

  /** The longest prefix of `s` that `.*` can match from the start. */
  function FirstLine(s: string): (r: string)
    ensures r <= s
    ensures forall i :: 0 <= i < |r| ==> !IsLineTerminator(r[i])
    ensures |r| < |s| ==> IsLineTerminator(s[|r|])
  {
    if s == [] || IsLineTerminator(s[0]) then [] else [s[0]] + FirstLine(s[1..])
  }

  /** `^(?=.*k)` holds of `s`. */
  predicate Lookahead(s: string, k: CharClass) {
    exists c :: c in FirstLine(s) && InClass(c, k)
  }

  /** Whether one test of a string field accepts a present value. */
  predicate Passes(rule: Rule, value: string, f: Formats) {
    match rule
    case Required(_) => value != ""
    case Min(n, _) => |value| >= n
    case Max(n, _) => |value| <= n
    case Url(_) => value == "" || f.isUrl(value)
    case Email(_) => value == "" || f.isEmail(value)
    case Lookaheads(ks, _) => forall k :: k in ks ==> Lookahead(value, k)
    case OneOf(allowed, _) => value in allowed
  }

  /** The message of the first failing test, or None when the value is accepted. */
  function FirstError(rules: seq<Rule>, value: string, f: Formats): (r: Option<string>)
    ensures r == None <==> forall i :: 0 <= i < |rules| ==> Passes(rules[i], value, f)
    ensures r.Some? ==> exists i :: 0 <= i < |rules| && !Passes(rules[i], value, f)
                                    && r.value == rules[i].message
                                    && forall j :: 0 <= j < i ==> Passes(rules[j], value, f)
  {
    if rules == [] then None
    else if !Passes(rules[0], value, f) then Some(rules[0].message)
    else
      var r := FirstError(rules[1..], value, f);
      assert forall i :: 1 <= i < |rules| ==> rules[i] == rules[1..][i - 1];
      r
  }

  /** One step of FirstError on a list given as its head and the rest. */
  lemma FirstErrorCons(rule: Rule, rest: seq<Rule>, value: string, f: Formats)
    ensures FirstError([rule] + rest, value, f) ==
            if Passes(rule, value, f) then FirstError(rest, value, f) else Some(rule.message)
  {
    assert ([rule] + rest)[1..] == rest;
  }

  /** The whitelist checks of a field, in declaration order. */
  function Whitelists(rules: seq<Rule>): (r: seq<Rule>)
    ensures forall x :: x in r <==> x in rules && x.OneOf?
    ensures (forall i :: 0 <= i < |rules| ==> !rules[i].OneOf?) ==> r == []
  {
    if rules == [] then []
    else
      var rest := Whitelists(rules[1..]);
      assert forall i :: 1 <= i < |rules| ==> rules[i] == rules[1..][i - 1];
      (if rules[0].OneOf? then [rules[0]] else []) + rest
  }

  /** The ordinary tests of a field, in declaration order. */
  function Ordinary(rules: seq<Rule>): (r: seq<Rule>)
    ensures forall x :: x in r <==> x in rules && !x.OneOf?
    ensures (forall i :: 0 <= i < |rules| ==> !rules[i].OneOf?) ==> r == rules
  {
    if rules == [] then []
    else
      var rest := Ordinary(rules[1..]);
      assert forall i :: 1 <= i < |rules| ==> rules[i] == rules[1..][i - 1];
      (if rules[0].OneOf? then [] else [rules[0]]) + rest
  }

  /** The whitelist checks keep declaration order: the group of a joined list is the joined groups. */
  lemma {:induction false} WhitelistsKeepOrder(a: seq<Rule>, b: seq<Rule>)
    ensures Whitelists(a + b) == Whitelists(a) + Whitelists(b)
    decreases |a|
  {
    if a == [] {
      assert a + b == b;
    } else {
      var head := if a[0].OneOf? then [a[0]] else [];
      var ab := a + b;
      assert ab[0] == a[0] && ab[1..] == a[1..] + b;
      WhitelistsKeepOrder(a[1..], b);
      calc {
        Whitelists(ab);
        head + Whitelists(a[1..] + b);
        head + (Whitelists(a[1..]) + Whitelists(b));
        (head + Whitelists(a[1..])) + Whitelists(b);
        Whitelists(a) + Whitelists(b);
      }
    }
  }

  /** The ordinary tests keep declaration order likewise. */
  lemma {:induction false} OrdinaryKeepsOrder(a: seq<Rule>, b: seq<Rule>)
    ensures Ordinary(a + b) == Ordinary(a) + Ordinary(b)
    decreases |a|
  {
    if a == [] {
      assert a + b == b;
    } else {
      var head := if a[0].OneOf? then [] else [a[0]];
      var ab := a + b;
      assert ab[0] == a[0] && ab[1..] == a[1..] + b;
      OrdinaryKeepsOrder(a[1..], b);
      calc {
        Ordinary(ab);
        head + Ordinary(a[1..] + b);
        head + (Ordinary(a[1..]) + Ordinary(b));
        (head + Ordinary(a[1..])) + Ordinary(b);
        Ordinary(a) + Ordinary(b);
      }
    }
  }

  /** The tests of a field in the order yup runs them: the same tests, whitelist checks first. */
  function RunOrder(declared: seq<Rule>): (r: seq<Rule>)
    ensures forall x :: x in r <==> x in declared
    ensures forall i, j :: 0 <= i < j < |r| && r[j].OneOf? ==> r[i].OneOf?
    ensures (forall i :: 0 <= i < |declared| ==> !declared[i].OneOf?) ==> r == declared
  {
    var w, o := Whitelists(declared), Ordinary(declared);
    assert forall i :: |w| <= i < |w + o| ==> (w + o)[i] == o[i - |w|];
    assert forall i :: 0 <= i < |w| ==> (w + o)[i] == w[i];
    assert forall i :: 0 <= i < |w| ==> w[i] in w;
    assert forall i :: 0 <= i < |o| ==> o[i] in o;
    w + o
  }

  /** The message a field shows: a failing whitelist check hides every ordinary test. */
  function FieldError(declared: seq<Rule>, value: string, f: Formats): (r: Option<string>)
    ensures r == None <==> forall i :: 0 <= i < |declared| ==> Passes(declared[i], value, f)
    ensures r.Some? ==> exists i :: 0 <= i < |declared| && !Passes(declared[i], value, f)
                                    && r.value == declared[i].message
    ensures (exists i :: 0 <= i < |declared| && declared[i].OneOf? && !Passes(declared[i], value, f)) ==>
              exists i :: 0 <= i < |declared| && declared[i].OneOf? && r == Some(declared[i].message)
    ensures (forall i :: 0 <= i < |declared| ==> !declared[i].OneOf?) ==> r == FirstError(declared, value, f)
  {
    var run := RunOrder(declared);
    var r := FirstError(run, value, f);
    WhitelistFirst(declared, run, value, f);
    r
  }

  lemma WhitelistFirst(declared: seq<Rule>, run: seq<Rule>, value: string, f: Formats)
    requires run == RunOrder(declared)
    ensures FirstError(run, value, f) == None <==>
            forall i :: 0 <= i < |declared| ==> Passes(declared[i], value, f)
    ensures FirstError(run, value, f).Some? ==>
              exists i :: 0 <= i < |declared| && !Passes(declared[i], value, f)
                          && FirstError(run, value, f).value == declared[i].message
    ensures (exists i :: 0 <= i < |declared| && declared[i].OneOf? && !Passes(declared[i], value, f)) ==>
              exists i :: 0 <= i < |declared| && declared[i].OneOf? && FirstError(run, value, f) == Some(declared[i].message)
  {
    var r := FirstError(run, value, f);
    assert forall i :: 0 <= i < |run| ==> run[i] in declared;
    assert forall i :: 0 <= i < |declared| ==> declared[i] in run;
    if r.Some? {
      var k :| 0 <= k < |run| && !Passes(run[k], value, f) && r.value == run[k].message
               && forall j :: 0 <= j < k ==> Passes(run[j], value, f);
      var d :| 0 <= d < |declared| && declared[d] == run[k];
      assert !Passes(declared[d], value, f) && r.value == declared[d].message;
      if exists i :: 0 <= i < |declared| && declared[i].OneOf? && !Passes(declared[i], value, f) {
        var i :| 0 <= i < |declared| && declared[i].OneOf? && !Passes(declared[i], value, f);
        var j :| 0 <= j < |run| && run[j] == declared[i];
        assert k <= j;
        assert run[k].OneOf?;
      }
    }
  }

  /** A character of class k occurs in `s` before any line terminator. */
  predicate HasBeforeLineBreak(s: string, k: CharClass) {
    exists i :: 0 <= i < |s| && InClass(s[i], k) && forall j :: 0 <= j < i ==> !IsLineTerminator(s[j])
  }

  /** `^(?=.*k)` means: a character of class k occurs before any line terminator. */
  lemma {:induction false} LookaheadMeaning(s: string, k: CharClass)
    ensures Lookahead(s, k) <==> HasBeforeLineBreak(s, k)
  {
    var line := FirstLine(s);
    if Lookahead(s, k) {
      var c :| c in line && InClass(c, k);
      var i :| 0 <= i < |line| && line[i] == c;
      assert s[i] == line[i];
      assert forall j :: 0 <= j < i ==> s[j] == line[j];
    }
    if HasBeforeLineBreak(s, k) {
      var i :| 0 <= i < |s| && InClass(s[i], k)
               && forall j :: 0 <= j < i ==> !IsLineTerminator(s[j]);
      assert i < |line|;
      assert line[i] == s[i];
      assert line[i] in line;
    }
  }
}
