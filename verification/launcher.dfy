/**
  The program's entry: the `--motion` option is lower-cased and matched
  against the three profile names; a match builds the node with the
  corresponding identifier, anything else builds no node.
 */
module Launcher {
  import opened MotionProfiles
  import opened Executioner

  function LowerChar(c: char): char
  {
    if 'A' <= c <= 'Z' then (c as int - 'A' as int + 'a' as int) as char else c
  }

  /** Lower-casing, restricted to ASCII letters. */
  function Lower(s: string): (r: string)
    ensures |r| == |s|
  {
    if s == [] then [] else [LowerChar(s[0])] + Lower(s[1..])
  }

  /** Lower-casing leaves no upper-case ASCII letter, turns each upper-case ASCII letter into its own
      lower-case letter (32 code points further) and leaves every other character as it is. */
  lemma {:induction false} LowerIsLowerCase(s: string)
    ensures forall i :: 0 <= i < |s| ==> !('A' <= Lower(s)[i] <= 'Z')
    ensures forall i :: 0 <= i < |s| && 'A' <= s[i] <= 'Z' ==> Lower(s)[i] as int == s[i] as int + 32
    ensures forall i :: 0 <= i < |s| && !('A' <= s[i] <= 'Z') ==> Lower(s)[i] == s[i]
  {
    if s != [] {
      LowerIsLowerCase(s[1..]);
      forall i | 0 <= i < |s|
        ensures !('A' <= Lower(s)[i] <= 'Z') && Lower(s)[i] == LowerChar(s[i])
      {
        if i > 0 {
          assert Lower(s)[i] == Lower(s[1..])[i - 1];
          assert s[i] == s[1..][i - 1];
        }
      }
    }
  }

  /** Two strings are equal up to ASCII letter case, `b` being the lower-case spelling: same length, and
      each character of `a` is that of `b` or, for a lower-case letter of `b`, its capital. */
  predicate EqualsIgnoringAsciiCase(a: string, b: string)
  {
    && |a| == |b|
    && forall i :: 0 <= i < |a| ==> a[i] == b[i] || ('a' <= b[i] <= 'z' && a[i] as int == b[i] as int - 32)
  }

  predicate NoCapitals(b: string)
  {
    forall i :: 0 <= i < |b| ==> !('A' <= b[i] <= 'Z')
  }

  /** Lower-casing `a` gives the capital-free `b` exactly when `a` spells `b` in any letter case. */
  lemma LowerMatchesIgnoringCase(a: string, b: string)
    requires NoCapitals(b)
    ensures Lower(a) == b <==> EqualsIgnoringAsciiCase(a, b)
  {
    LowerIsLowerCase(a);
    if EqualsIgnoringAsciiCase(a, b) {
      forall i | 0 <= i < |a| ensures Lower(a)[i] == b[i] {
        if a[i] != b[i] {
          assert 'A' <= a[i] <= 'Z';
        }
      }
      assert Lower(a) == b;
    }
  }

  /** Lower-casing twice is lower-casing once. */
  lemma {:induction false} LowerIsIdempotent(s: string)
    ensures Lower(Lower(s)) == Lower(s)
  {
    if s != [] {
      LowerIsIdempotent(s[1..]);
      assert Lower(s)[1..] == Lower(s[1..]);
    }
  }

  /** The `if/elif` chain of the entry point: "circle", "line" and "spiral", in any letter case, select
      CIRCLE, ACC_LINE and SPIRAL; anything else selects none. */
  function SelectMotion(arg: string): (r: Option<int>)
    ensures r == Some(CIRCLE) <==> EqualsIgnoringAsciiCase(arg, "circle")
    ensures r == Some(ACC_LINE) <==> EqualsIgnoringAsciiCase(arg, "line")
    ensures r == Some(SPIRAL) <==> EqualsIgnoringAsciiCase(arg, "spiral")
    ensures r.None? <==>
      !EqualsIgnoringAsciiCase(arg, "circle") && !EqualsIgnoringAsciiCase(arg, "line") && !EqualsIgnoringAsciiCase(arg, "spiral")
  {
    LowerMatchesIgnoringCase(arg, "circle");
    LowerMatchesIgnoringCase(arg, "line");
    LowerMatchesIgnoringCase(arg, "spiral");
    var name := Lower(arg);
    if name == "circle" then Some(CIRCLE)
    else if name == "line" then Some(ACC_LINE)
    else if name == "spiral" then Some(SPIRAL)
    else None
  }

  /** Mixed-case spellings of the three names select their profiles. */
  lemma CapitalisedNamesSelect()
    ensures SelectMotion("CIRCLE") == Some(CIRCLE)
    ensures SelectMotion("Line") == Some(ACC_LINE)
    ensures SelectMotion("SpIrAl") == Some(SPIRAL)
  {
    assert EqualsIgnoringAsciiCase("CIRCLE", "circle");
    assert EqualsIgnoringAsciiCase("Line", "line");
    assert EqualsIgnoringAsciiCase("SpIrAl", "spiral");
  }

  /** With no `--motion` option the argument is "circle", which selects CIRCLE. */
  lemma DefaultOptionSelectsCircle()
    ensures SelectMotion("circle") == Some(CIRCLE)
  {
    assert EqualsIgnoringAsciiCase("circle", "circle");
  }

  /** Each name selects its own profile, in both directions, and every other argument selects nothing. */
  lemma SelectMotionIsExact(arg: string)
    ensures SelectMotion(arg) == Some(CIRCLE) <==> Lower(arg) == "circle"
    ensures SelectMotion(arg) == Some(ACC_LINE) <==> Lower(arg) == "line"
    ensures SelectMotion(arg) == Some(SPIRAL) <==> Lower(arg) == "spiral"
    ensures SelectMotion(arg).None? <==> Lower(arg) !in {"circle", "line", "spiral"}
  {
  }

  /** Selection does not depend on letter case. */
  lemma SelectIsCaseInsensitive(arg: string)
    ensures SelectMotion(Lower(arg)) == SelectMotion(arg)
  {
    LowerIsIdempotent(arg);
  }

  /** A selected identifier is a valid label index and a known profile, so the node it builds can be
      constructed and never raises SystemExit, whatever the callbacks. */
  lemma SelectedNodeNeverExits(arg: string, events: seq<Event>)
    requires SelectMotion(arg).Some?
    ensures IndexesMotionTypes(SelectMotion(arg).value)
    ensures ProfileOf(SelectMotion(arg).value).Some?
    ensures !Run(Init(SelectMotion(arg).value), events).exited
  {
    ExitOnlyForUnknownProfile(Init(SelectMotion(arg).value), events);
  }

  /** The entry point up to spinning: the node built for the argument, or none. */
  method Launch(arg: string) returns (node: Option<MotionExecutioner>)
    ensures node.Some? <==> SelectMotion(arg).Some?
    ensures node.Some? ==> fresh(node.value) && node.value.State() == Init(SelectMotion(arg).value)
  {
    var name := Lower(arg);
    if name == "circle" {
      var me := new MotionExecutioner(CIRCLE);
      node := Some(me);
    } else if name == "line" {
      var me := new MotionExecutioner(ACC_LINE);
      node := Some(me);
    } else if name == "spiral" {
      var me := new MotionExecutioner(SPIRAL);
      node := Some(me);
    } else {
      node := None;
    }
  }
}
