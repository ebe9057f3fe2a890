/** `SimpleMarkup` (vendor/qubes-utils-0.1.0/src/simple_markup.rs): a growing
    buffer of the freedesktop.org notification markup, into which safely
    displayable text is appended with the five markup-significant characters
    replaced by entities. */
module Markup {
  import opened Displayable

  /** The five markup-significant characters and their entities. */
  const ENTITIES: map<char, string> :=
    map['>' := "&gt;", '<' := "&lt;", '"' := "&quot;", '\'' := "&#x27;", '&' := "&amp;"]

  /** What one character of input becomes in the markup. */
  function Entity(c: char): string {
    if c in ENTITIES then ENTITIES[c] else [c]
  }

  /** The markup for all of `s`: never shorter than `s`. */
  function Escaped(s: string): (r: string)
    ensures |s| <= |r|
  {
    if s == [] then [] else Entity(s[0]) + Escaped(s[1..])
  }

  predicate Significant(c: char) {
    c == '>' || c == '<' || c == '"' || c == '\'' || c == '&'
  }

  class SimpleMarkup {
    var data: string

    /** `Default::default()`: empty markup. */
    constructor ()
      ensures data == []
    {
      data := [];
    }

    /** `append_escaped`: the markup of `d` goes at the end; what was there
        stays. */
    method AppendEscaped(d: SafelyDisplayable)
      modifies this
      ensures data == old(data) + Escaped(d.text)
    {
      ghost var start := data;
      var i := 0;
      while i < |d.text|
        invariant 0 <= i <= |d.text|
        invariant data == start + Escaped(d.text[..i])
      {
        ghost var done := Escaped(d.text[..i]);
        Push(d.text[i]);
        EscapedPrefix(d.text, i);
        AppendAssociates(start, done, Entity(d.text[i]));
        i := i + 1;
      }
      assert d.text[..i] == d.text;
    }

    /** One turn of the loop of `append_escaped`: the character, or its entity
        when it is markup-significant, goes at the end. */
    method Push(c: char)
      modifies this
      ensures data == old(data) + Entity(c)
    {
      match c {
        case '>' => data := data + "&gt;";
        case '<' => data := data + "&lt;";
        case '"' => data := data + "&quot;";
        case '\'' => data := data + "&#x27;";
        case '&' => data := data + "&amp;";
        case _ => data := data + [c];
      }
    }

    /** `escape`: fresh markup holding the escaped text of `d` alone. */
    static method Escape(d: SafelyDisplayable) returns (m: SimpleMarkup)
      ensures fresh(m)
      ensures m.data == Escaped(d.text)
    {
      m := new SimpleMarkup();
      m.AppendEscaped(d);
    }
  }

  /** Reads markup back: each of the five entities becomes its character,
      anything else stands for itself. */
  function Unescape(r: string): (t: string)
    ensures |t| <= |r|
    decreases |r|
  {
    if r == [] then []
    else if r[0] != '&' then [r[0]] + Unescape(r[1..])
    else if |r| >= 4 && r[..4] == "&gt;" then ">" + Unescape(r[4..])
    else if |r| >= 4 && r[..4] == "&lt;" then "<" + Unescape(r[4..])
    else if |r| >= 6 && r[..6] == "&quot;" then "\"" + Unescape(r[6..])
    else if |r| >= 6 && r[..6] == "&#x27;" then "'" + Unescape(r[6..])
    else if |r| >= 5 && r[..5] == "&amp;" then "&" + Unescape(r[5..])
    else [r[0]] + Unescape(r[1..])
  }

  lemma {:induction false} EscapedAppend(a: string, b: string)
    ensures Escaped(a + b) == Escaped(a) + Escaped(b)
    decreases |a|
  {
    if a == [] {
      assert a + b == b;
    } else {
      assert (a + b)[1..] == a[1..] + b;
      EscapedAppend(a[1..], b);
    }
  }

  lemma AppendAssociates(a: string, b: string, c: string)
    ensures (a + b) + c == a + (b + c)
  {
  }

  /** Escaping one more character of `t` appends its entity. */
  lemma EscapedPrefix(t: string, i: nat)
    requires i < |t|
    ensures Escaped(t[..i + 1]) == Escaped(t[..i]) + Entity(t[i])
  {
    assert t[..i + 1] == t[..i] + [t[i]];
    EscapedSnoc(t[..i], t[i]);
  }

  /** Escaping one more character appends its entity. */
  lemma EscapedSnoc(s: string, c: char)
    ensures Escaped(s + [c]) == Escaped(s) + Entity(c)
  {
    EscapedAppend(s, [c]);
    assert Escaped([c]) == Entity(c) by {
      assert [c][1..] == [];
    }
  }

  lemma UnescapeEntity(c: char, rest: string)
    ensures Unescape(Entity(c) + rest) == [c] + Unescape(rest)
  {
    if c == '>' { UnescapeGt(rest); }
    else if c == '<' { UnescapeLt(rest); }
    else if c == '"' { UnescapeQuot(rest); }
    else if c == '\'' { UnescapeApos(rest); }
    else if c == '&' { UnescapeAmp(rest); }
    else { UnescapePlain(c, rest); }
  }

  lemma UnescapeGt(rest: string)
    ensures Unescape("&gt;" + rest) == ">" + Unescape(rest)
  {
    var r := "&gt;" + rest;
    assert r[..4] == "&gt;" && r[4..] == rest;
  }

  lemma UnescapeLt(rest: string)
    ensures Unescape("&lt;" + rest) == "<" + Unescape(rest)
  {
    var r := "&lt;" + rest;
    assert r[..4] == "&lt;" && r[4..] == rest;
  }

  lemma UnescapeQuot(rest: string)
    ensures Unescape("&quot;" + rest) == "\"" + Unescape(rest)
  {
    var r := "&quot;" + rest;
    assert r[..4] != "&gt;" && r[..4] != "&lt;" by {
      assert r[..4][1] == 'q';
    }
    assert r[..6] == "&quot;" && r[6..] == rest;
  }

  lemma UnescapeApos(rest: string)
    ensures Unescape("&#x27;" + rest) == "'" + Unescape(rest)
  {
    var r := "&#x27;" + rest;
    assert r[..4] != "&gt;" && r[..4] != "&lt;" by {
      assert r[..4][1] == '#';
    }
    assert r[..6] != "&quot;" by {
      assert r[..6][1] == '#';
    }
    assert r[..6] == "&#x27;" && r[6..] == rest;
  }

  lemma UnescapeAmp(rest: string)
    ensures Unescape("&amp;" + rest) == "&" + Unescape(rest)
  {
    var r := "&amp;" + rest;
    assert r[..4] != "&gt;" && r[..4] != "&lt;" by {
      assert r[..4][1] == 'a';
    }
    assert |r| >= 6 ==> r[..6] != "&quot;" && r[..6] != "&#x27;" by {
      if |r| >= 6 {
        assert r[..6][1] == 'a';
      }
    }
    assert r[..5] == "&amp;" && r[5..] == rest;
  }

  lemma UnescapePlain(c: char, rest: string)
    requires c != '&'
    ensures Unescape([c] + rest) == [c] + Unescape(rest)
  {
    var r := [c] + rest;
    assert r[0] == c && r[1..] == rest;
  }

  /** Markup round trip: unescaping gives back exactly the appended text. */
  lemma {:induction false} UnescapeEscaped(s: string)
    ensures Unescape(Escaped(s)) == s
    decreases |s|
  {
    if s != [] {
      UnescapeEntity(s[0], Escaped(s[1..]));
      UnescapeEscaped(s[1..]);
    }
  }

  /** Different texts give different markup. */
  lemma EscapedInjective(s: string, t: string)
    requires Escaped(s) == Escaped(t)
    ensures s == t
  {
    UnescapeEscaped(s);
    UnescapeEscaped(t);
  }

  /** No tag or attribute delimiter survives escaping: the only
      markup-significant character left is the `&` of an entity. */
  lemma {:induction false} EscapedHasNoDelimiters(s: string)
    ensures forall i | 0 <= i < |Escaped(s)| :: Escaped(s)[i] !in "<>\"'"
    ensures forall i | 0 <= i < |Escaped(s)| :: Significant(Escaped(s)[i]) ==> Escaped(s)[i] == '&'
    decreases |s|
  {
    if s != [] {
      EscapedHasNoDelimiters(s[1..]);
    }
  }

  /** Escaping never shortens the text, and leaves text without
      significant characters as it was. */
  lemma {:induction false} EscapedLength(s: string)
    ensures |Escaped(s)| >= |s|
    ensures (forall i | 0 <= i < |s| :: !Significant(s[i])) ==> Escaped(s) == s
    decreases |s|
  {
    if s != [] {
      EscapedLength(s[1..]);
      if forall i | 0 <= i < |s| :: !Significant(s[i]) {
        assert s == [s[0]] + s[1..];
      }
    }
  }

  /** `p` occurs in `r` at index `i`. */
  predicate OccursAt(r: string, i: nat, p: string) {
    i + |p| <= |r| && r[i..i + |p|] == p
  }

  /** One of the five entities starts at index `i` of `r`. */
  predicate EntityAt(r: string, i: nat) {
    OccursAt(r, i, "&gt;") || OccursAt(r, i, "&lt;") || OccursAt(r, i, "&quot;")
    || OccursAt(r, i, "&#x27;") || OccursAt(r, i, "&amp;")
  }

  /** An `&` in escaped text is the start of an entity. */
  lemma {:induction false} AmpersandStartsEntity(s: string, i: nat)
    requires i < |Escaped(s)| && Escaped(s)[i] == '&'
    ensures EntityAt(Escaped(s), i)
    decreases |s|
  {
    var e, r := Entity(s[0]), Escaped(s[1..]);
    assert Escaped(s) == e + r;
    if i < |e| {
      AmpersandInHead(s[0], r, i);
    } else {
      AmpersandStartsEntity(s[1..], i - |e|);
      ShiftEntity(e, r, i - |e|);
    }
  }

  /** An `&` within the markup of the first character opens its entity. */
  lemma AmpersandInHead(c: char, r: string, i: nat)
    requires i < |Entity(c)| && (Entity(c) + r)[i] == '&'
    ensures EntityAt(Entity(c) + r, i)
  {
    AmpersandOnlyOpens(c, i);
    EntityOpens(c, r);
  }

  /** Within one character's markup, an `&` can only be the first character
      of an entity. */
  lemma AmpersandOnlyOpens(c: char, k: nat)
    requires k < |Entity(c)| && Entity(c)[k] == '&'
    ensures k == 0 && Significant(c)
  {
  }

  lemma EntityOpens(c: char, r: string)
    requires Significant(c)
    ensures EntityAt(Entity(c) + r, 0)
  {
    var e := Entity(c);
    assert (e + r)[..|e|] == e;
  }

  lemma ShiftOccurrence(e: string, r: string, j: nat, p: string)
    requires OccursAt(r, j, p)
    ensures OccursAt(e + r, |e| + j, p)
  {
    assert (e + r)[|e| + j..|e| + j + |p|] == r[j..j + |p|];
  }

  /** An entity in `r` is still one after `e` is put in front. */
  lemma ShiftEntity(e: string, r: string, j: nat)
    requires EntityAt(r, j)
    ensures EntityAt(e + r, |e| + j)
  {
    if OccursAt(r, j, "&gt;") { ShiftOccurrence(e, r, j, "&gt;"); }
    else if OccursAt(r, j, "&lt;") { ShiftOccurrence(e, r, j, "&lt;"); }
    else if OccursAt(r, j, "&quot;") { ShiftOccurrence(e, r, j, "&quot;"); }
    else if OccursAt(r, j, "&#x27;") { ShiftOccurrence(e, r, j, "&#x27;"); }
    else { ShiftOccurrence(e, r, j, "&amp;"); }
  }

  /** Every `&` in escaped text opens one of the five entities. */
  lemma EscapedAmpersandsAreEntities(s: string)
    ensures forall i: nat | i < |Escaped(s)| && Escaped(s)[i] == '&' :: EntityAt(Escaped(s), i)
  {
    forall i: nat | i < |Escaped(s)| && Escaped(s)[i] == '&'
      ensures EntityAt(Escaped(s), i)
    {
      AmpersandStartsEntity(s, i);
    }
  }
}
