/** The Email value object: validated against `^[^\s@]+@[^\s@]+\.[^\s@]+$`, then lower-cased. */
module Emails {
  import opened Wrappers
  import opened Text

  datatype EmailError = InvalidEmail(value: string)

  /** The regex class `[^\s@]`. */
  predicate PlainChar(c: char) {
    !IsWhitespace(c) && c != '@'
  }

  ghost predicate AllPlain(s: string) {
    forall k :: 0 <= k < |s| ==> PlainChar(s[k])
  }

  /** The pattern's structure, read off the regex: a run of plain characters, `@`, a run,
      `.`, a run, with `@` at `i` and the chosen `.` at `j`. */
  ghost predicate PatternSplit(t: string, i: int, j: int) {
    0 < i && i + 1 < j && j + 1 < |t| && t[i] == '@' && t[j] == '.' &&
    AllPlain(t[..i]) && AllPlain(t[i + 1..j]) && AllPlain(t[j + 1..])
  }

  /** The whole of `t` matches the pattern (some choice of the `.` makes the regex succeed). */
  ghost predicate FullMatch(t: string) {
    exists i, j :: PatternSplit(t, i, j)
  }

  /** What `re.match` with a final `$` accepts: `$` also matches just before one trailing
      line feed, so a full match followed by a single '\n' is accepted too. */
  ghost predicate RegexMatch(s: string) {
    FullMatch(s) || (|s| > 0 && s[|s| - 1] == '\n' && FullMatch(s[..|s| - 1]))
  }

  /** No position other than `i` holds an '@'. */
  predicate OnlyAt(t: string, i: int) {
    forall k :: 0 <= k < |t| && k != i ==> t[k] != '@'
  }

  /** The address shape the pattern describes: no whitespace, exactly one '@' after a
      non-empty local part, and a '.' in the domain with text on both of its sides. */
  predicate AddressShape(t: string) {
    (forall k :: 0 <= k < |t| ==> !IsWhitespace(t[k])) &&
    exists i | 0 < i < |t| ::
      t[i] == '@' && OnlyAt(t, i) && exists j | i + 1 < j < |t| - 1 :: t[j] == '.'
  }

  /** `_is_valid`. */
  predicate Accepts(s: string) {
    AddressShape(s) || (|s| > 0 && s[|s| - 1] == '\n' && AddressShape(s[..|s| - 1]))
  }

  lemma {:induction false} ShapeIsPattern(t: string)
    ensures AddressShape(t) <==> FullMatch(t)
  {
    if AddressShape(t) {
      var i :| 0 < i < |t| && t[i] == '@' && OnlyAt(t, i) && exists j | i + 1 < j < |t| - 1 :: t[j] == '.';
      var j :| i + 1 < j < |t| - 1 && t[j] == '.';
      assert AllPlain(t[..i]) by {
        forall k | 0 <= k < i ensures PlainChar(t[..i][k]) { assert t[..i][k] == t[k]; }
      }
      var middle, last := t[i + 1..j], t[j + 1..];
      assert AllPlain(middle) by {
        forall k | 0 <= k < |middle| ensures PlainChar(middle[k]) { assert middle[k] == t[i + 1 + k]; }
      }
      assert AllPlain(last) by {
        forall k | 0 <= k < |last| ensures PlainChar(last[k]) { assert last[k] == t[j + 1 + k]; }
      }
      assert PatternSplit(t, i, j);
    }
    if FullMatch(t) {
      var i, j :| PatternSplit(t, i, j);
      forall k | 0 <= k < |t| && k != i && k != j ensures PlainChar(t[k]) {
        if k < i {
          assert t[..i][k] == t[k];
        } else if k < j {
          assert t[i + 1..j][k - i - 1] == t[k];
        } else {
          assert t[j + 1..][k - j - 1] == t[k];
        }
      }
      assert OnlyAt(t, i);
      assert AddressShape(t);
    }
  }

  /** The checked shape is exactly what the regex accepts. */
  lemma AcceptsIsRegex(s: string)
    ensures Accepts(s) <==> RegexMatch(s)
  {
    ShapeIsPattern(s);
    if |s| > 0 {
      ShapeIsPattern(s[..|s| - 1]);
    }
  }

  lemma {:induction false} LowerKeepsShape(t: string)
    requires AddressShape(t)
    ensures AddressShape(Lower(t))
  {
    var u := Lower(t);
    var i :| 0 < i < |t| && t[i] == '@' && OnlyAt(t, i) && exists j | i + 1 < j < |t| - 1 :: t[j] == '.';
    var j :| i + 1 < j < |t| - 1 && t[j] == '.';
    assert u[i] == '@' && u[j] == '.';
    assert OnlyAt(u, i);
  }

  lemma {:induction false} LowerKeepsAccepted(s: string)
    requires Accepts(s)
    ensures Accepts(Lower(s))
  {
    if AddressShape(s) {
      LowerKeepsShape(s);
    } else {
      var n := |s|;
      LowerKeepsShape(s[..n - 1]);
      assert Lower(s)[..n - 1] == Lower(s[..n - 1]);
    }
  }

  lemma {:induction false} AcceptedHasOneAt(s: string)
    requires Accepts(s)
    ensures '@' in s && OnlyAt(s, FirstIndex(s, '@'))
  {
    var t := if AddressShape(s) then s else s[..|s| - 1];
    assert AddressShape(t);
    var i :| 0 < i < |t| && t[i] == '@' && OnlyAt(t, i) && exists j | i + 1 < j < |t| - 1 :: t[j] == '.';
    assert s[i] == '@';
    assert OnlyAt(s, i);
    assert FirstIndex(s, '@') == i;
  }

  /** An Email holds the lower-cased form of an accepted string; equality compares it. */
  datatype Email = Email(value: string) {

    predicate Valid() {
      Accepts(value) && Lower(value) == value
    }

    /** `local_part`: `value.split('@')[0]`. */
    function LocalPart(): (r: string)
      requires Valid()
      ensures '@' in value && r == value[..FirstIndex(value, '@')]
    {
      AcceptedHasOneAt(value);
      SplitAtOnlySeparator(value, '@', FirstIndex(value, '@'));
      Split(value, '@')[0]
    }

    /** `domain`: `value.split('@')[1]`. */
    function Domain(): (r: string)
      requires Valid()
      ensures '@' in value && r == value[FirstIndex(value, '@') + 1..]
    {
      AcceptedHasOneAt(value);
      SplitAtOnlySeparator(value, '@', FirstIndex(value, '@'));
      Split(value, '@')[1]
    }

    /** `__str__`: the stored, lower-cased address, which builds the same Email again. */
    function ToString(): (r: string)
      ensures r == value
      ensures Valid() ==> NewEmail(r) == Ok(this)
    {
      AcceptsIsRegex(value);
      value
    }
  }

  /** `Email(value)`: raises unless the pattern matches, and stores the lower-cased text. */
  function NewEmail(s: string): (r: Result<Email, EmailError>)
    ensures r.Ok? <==> RegexMatch(s)
    ensures r.Ok? ==> r.value.value == Lower(s) && r.value.Valid()
    ensures r.Err? ==> r.error == InvalidEmail(s)
  {
    AcceptsIsRegex(s);
    if !Accepts(s) then Err(InvalidEmail(s))
    else
      LowerKeepsAccepted(s);
      LowerIdempotent(s);
      Ok(Email(Lower(s)))
  }

  lemma RejoinAt(v: string, i: nat)
    requires i < |v| && v[i] == '@' && OnlyAt(v, i)
    ensures v[..i] + "@" + v[i + 1..] == v
    ensures '@' !in v[..i] && '@' !in v[i + 1..]
  {
    var local, domain := v[..i], v[i + 1..];
    assert v[i..] == "@" + domain;
    assert v == local + v[i..];
    assert '@' !in domain by {
      forall k | 0 <= k < |domain| ensures domain[k] != '@' { assert domain[k] == v[i + 1 + k]; }
    }
    assert '@' !in local by {
      forall k | 0 <= k < |local| ensures local[k] != '@' { assert local[k] == v[k]; }
    }
  }

  /** The two parts joined by '@' give the stored address back, and neither contains '@'. */
  lemma PartsRejoin(e: Email)
    requires e.Valid()
    ensures e.LocalPart() + "@" + e.Domain() == e.value
    ensures '@' !in e.LocalPart() && '@' !in e.Domain()
  {
    AcceptedHasOneAt(e.value);
    RejoinAt(e.value, FirstIndex(e.value, '@'));
  }

  /** Addresses that differ only in the case of ASCII letters make equal Emails. */
  lemma EqualIgnoringCase(s: string, t: string)
    requires RegexMatch(s) && Lower(s) == Lower(t)
    ensures NewEmail(s).Ok? && NewEmail(t).Ok? && NewEmail(s) == NewEmail(t)
  {
    AcceptsIsRegex(s);
    AcceptsIsRegex(t);
    LowerKeepsAccepted(s);
    // Lower(t) is accepted; acceptance is unchanged by lower-casing characters that
    // are not '@', '.', '\n' or whitespace, so t is accepted as well.
    assert Accepts(Lower(t));
    UpperKeepsAccepted(t);
  }

  lemma {:induction false} UpperKeepsShape(t: string)
    requires AddressShape(Lower(t))
    ensures AddressShape(t)
  {
    var u := Lower(t);
    var i :| 0 < i < |u| && u[i] == '@' && OnlyAt(u, i) && exists j | i + 1 < j < |u| - 1 :: u[j] == '.';
    var j :| i + 1 < j < |u| - 1 && u[j] == '.';
    assert t[i] == '@' && t[j] == '.';
    assert OnlyAt(t, i);
    assert forall k :: 0 <= k < |t| ==> (IsWhitespace(t[k]) <==> IsWhitespace(u[k]));
  }

  lemma {:induction false} UpperKeepsAccepted(t: string)
    requires Accepts(Lower(t))
    ensures Accepts(t)
  {
    var n := |t|;
    if AddressShape(Lower(t)) {
      UpperKeepsShape(t);
    } else {
      assert Lower(t)[..n - 1] == Lower(t[..n - 1]);
      UpperKeepsShape(t[..n - 1]);
    }
  }

  /** The ` $` edge case: one trailing line feed is accepted and kept in the stored value. */
  lemma TrailingNewlineAccepted()
    ensures NewEmail("a@b.co\n") == Ok(Email("a@b.co\n"))
    ensures NewEmail("a@b.co\n").value.Domain() == "b.co\n"
  {
    var s := "a@b.co\n";
    assert s[..|s| - 1] == "a@b.co";
    assert AddressShape("a@b.co") by {
      assert "a@b.co"[1] == '@' && "a@b.co"[3] == '.';
      assert OnlyAt("a@b.co", 1);
    }
    assert Lower(s) == s;
    assert Accepts(s);
    assert FirstIndex(s, '@') == 1;
  }

  /** An address in capitals is accepted and stored in lower case. */
  lemma CapitalsAreLowered()
    ensures NewEmail("A@B.CO").Ok? && NewEmail("A@B.CO").value.value == "a@b.co"
  {
    var u := "A@B.CO";
    assert AddressShape(u) by {
      assert u[1] == '@' && u[3] == '.';
      assert OnlyAt(u, 1);
    }
    assert Lower(u) == "a@b.co";
  }

  /** A domain without a dot, a second '@' and a space are each refused. */
  lemma MalformedRefused()
    ensures NewEmail("a@b").Err? && NewEmail("a@@b.co").Err? && NewEmail("a b@c.de").Err?
  {
    assert !Accepts("a@b");
    assert !Accepts("a@@b.co") by {
      var v := "a@@b.co";
      assert !AddressShape(v) by {
        forall i | 0 < i < |v| && v[i] == '@' ensures !OnlyAt(v, i) {
          if i == 1 { assert v[2] == '@'; } else { assert v[1] == '@'; }
        }
      }
    }
    assert !Accepts("a b@c.de") by {
      assert IsWhitespace("a b@c.de"[1]);
    }
  }
}
