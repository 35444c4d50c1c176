/** Order, white space, NUL characters and numbers in text. */
module Text {
  predicate IsSpace(c: char) {
    || c in "\t\n\r " || c == '\U{000B}' || c == '\U{000C}' || c == '\U{0085}' || c == '\U{00A0}'
    || c == '\U{1680}' || '\U{2000}' <= c <= '\U{200A}' || c == '\U{2028}' || c == '\U{2029}'
    || c == '\U{202F}' || c == '\U{205F}' || c == '\U{3000}'
  }

  /** Nothing is left of the text once white space is trimmed. */
  predicate Blank(text: string) {
    forall i :: 0 <= i < |text| ==> IsSpace(text[i])
  }

  /** The text without white space at either end. */
  function TrimSpace(text: string): string {
    if text == "" then ""
    else if IsSpace(text[0]) then TrimSpace(text[1..])
    else if IsSpace(text[|text| - 1]) then TrimSpace(text[..|text| - 1])
    else text
  }

  lemma {:induction false} TrimSpaceBlank(text: string)
    ensures TrimSpace(text) == "" <==> Blank(text)
  {
    if text != "" {
      if IsSpace(text[0]) {
        TrimSpaceBlank(text[1..]);
        assert text == [text[0]] + text[1..];
      } else if IsSpace(text[|text| - 1]) {
        TrimSpaceBlank(text[..|text| - 1]);
        assert text == text[..|text| - 1] + [text[|text| - 1]];
      }
    }
  }

  /** Only white space is left around this part of the text. */
  ghost predicate Inside(outer: string, inner: string, i: int, j: int) {
    0 <= i <= j <= |outer| && inner == outer[i..j] && Blank(outer[..i]) && Blank(outer[j..])
  }

  /** The inner text is the outer one without the white space at its ends. */
  ghost predicate Trims(outer: string, inner: string) {
    && (exists i, j :: Inside(outer, inner, i, j))
    && (inner != "" ==> !IsSpace(inner[0]) && !IsSpace(inner[|inner| - 1]))
  }

  lemma BlankJoins(a: string, b: string)
    requires Blank(a) && Blank(b)
    ensures Blank(a + b)
  {
  }

  lemma TrimsAfter(c: char, text: string, inner: string)
    requires IsSpace(c) && Trims(text, inner)
    ensures Trims([c] + text, inner)
  {
    hide IsSpace, Blank;
    var i, j :| Inside(text, inner, i, j);
    var longer := [c] + text;
    OneBlank(c);
    BlankJoins([c], text[..i]);
    assert longer[i + 1..j + 1] == inner && longer[..i + 1] == [c] + text[..i] && longer[j + 1..] == text[j..];
    assert Inside(longer, inner, i + 1, j + 1);
  }

  lemma TrimsBefore(text: string, c: char, inner: string)
    requires IsSpace(c) && Trims(text, inner)
    ensures Trims(text + [c], inner)
  {
    hide IsSpace, Blank;
    var i, j :| Inside(text, inner, i, j);
    var longer := text + [c];
    OneBlank(c);
    BlankJoins(text[j..], [c]);
    assert longer[i..j] == inner && longer[..i] == text[..i] && longer[j..] == text[j..] + [c];
    assert Inside(longer, inner, i, j);
  }

  lemma OneBlank(c: char)
    requires IsSpace(c)
    ensures Blank([c])
  {
  }

  lemma {:induction false} TrimSpaceTrims(text: string)
    ensures Trims(text, TrimSpace(text))
  {
    hide IsSpace;
    if text == "" || (!IsSpace(text[0]) && !IsSpace(text[|text| - 1])) {
      assert text[0..|text|] == text && Blank(text[..0]) && Blank(text[|text|..]);
      assert Inside(text, text, 0, |text|);
    } else {
      hide Trims;
      if IsSpace(text[0]) {
        TrimSpaceTrims(text[1..]);
        TrimsAfter(text[0], text[1..], TrimSpace(text));
        assert text == [text[0]] + text[1..];
      } else {
        var front, last := text[..|text| - 1], text[|text| - 1];
        TrimSpaceTrims(front);
        TrimsBefore(front, last, TrimSpace(text));
        assert text == front + [last];
      }
    }
  }

  /** The text with every NUL character taken out. */
  function WithoutNul(text: string): string {
    if text == "" then ""
    else WithoutNul(text[..|text| - 1]) + if text[|text| - 1] == '\0' then "" else [text[|text| - 1]]
  }

  lemma {:induction false} WithoutNulJoins(a: string, b: string)
    ensures WithoutNul(a + b) == WithoutNul(a) + WithoutNul(b)
  {
    if b == "" {
      assert a + b == a;
    } else {
      WithoutNulJoins(a, b[..|b| - 1]);
      assert (a + b)[..|a + b| - 1] == a + b[..|b| - 1];
    }
  }

  /** All other characters stay, as often as they were; a text without NUL stays as it is. */
  lemma {:induction false} WithoutNulKeeps(text: string)
    ensures '\0' !in WithoutNul(text)
    ensures forall c: char :: c != '\0' ==> multiset(WithoutNul(text))[c] == multiset(text)[c]
    ensures '\0' !in text <==> WithoutNul(text) == text
  {
    if text != "" {
      var front, last := text[..|text| - 1], text[|text| - 1];
      WithoutNulKeeps(front);
      assert text == front + [last];
    }
  }

  /** String order, by code point. */
  predicate Before(a: string, b: string) {
    if b == "" then false
    else if a == "" then true
    else a[0] < b[0] || (a[0] == b[0] && Before(a[1..], b[1..]))
  }

  lemma {:induction false} BeforeTotal(a: string, b: string)
    ensures a != b ==> (Before(a, b) <==> !Before(b, a))
    ensures !Before(a, a)
  {
    if a != "" && b != "" && a[0] == b[0] {
      BeforeTotal(a[1..], b[1..]);
      assert a == [a[0]] + a[1..] && b == [b[0]] + b[1..];
    }
    if a != "" {
      BeforeTotal(a[1..], a[1..]);
    }
  }

  /** A number in decimal digits. */
  function Itoa(n: nat): string {
    if n < 10 then [(n + '0' as int) as char]
    else Itoa(n / 10) + [(n % 10 + '0' as int) as char]
  }
}
