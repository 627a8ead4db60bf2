/** utils/doc_utils.py: `DocumentProcessor`, the loader, cleaner and chunker that the
    per-tenant ingestion path (utils/Custom_cortex.py) inherits. Chunk cleaning is
    the normalisation the search index stores: special characters removed,
    whitespace runs collapsed to one space, the ends trimmed. */
module DocUtils {
  import opened Py
  import opened Splitting

  /** The constructor's defaults: chunk size 1000, overlap 100. */
  datatype DocumentProcessor = DocumentProcessor(chunkSize: int := 1000, overlap: int := 100)

  /** `[a-zA-Z0-9]`. */
  predicate IsAsciiAlnum(c: char) {
    'a' <= c <= 'z' || 'A' <= c <= 'Z' || '0' <= c <= '9'
  }

  /** `\s` for a str pattern, the same set as `str.isspace` that `strip()` uses. */
  predicate IsSpace(c: char) {
    || c == ' ' || '\t' <= c <= '\r' || '\U{1c}' <= c <= '\U{1f}'
    || c == '\U{85}' || c == '\U{a0}' || c == '\U{1680}' || '\U{2000}' <= c <= '\U{200a}'
    || c == '\U{2028}' || c == '\U{2029}' || c == '\U{202f}' || c == '\U{205f}' || c == '\U{3000}'
  }

  /** The characters the first substitution keeps: `[a-zA-Z0-9\s]`. */
  predicate Kept(c: char) {
    IsAsciiAlnum(c) || IsSpace(c)
  }

  predicate NoDoubleSpace(t: string) {
    forall i :: 0 <= i < |t| - 1 ==> !(t[i] == ' ' && t[i + 1] == ' ')
  }

  /** Text that is already collapsed: whitespace only as single plain spaces. */
  predicate Collapsed(t: string) {
    (forall i :: 0 <= i < |t| ==> t[i] == ' ' || !IsSpace(t[i])) && NoDoubleSpace(t)
  }

  /** What a cleaned chunk looks like: ASCII letters, digits and single spaces, with
      no space at either end. */
  predicate Normal(t: string) {
    && Words(t)
    && (|t| > 0 ==> t[0] != ' ' && t[|t| - 1] != ' ')
  }

  /** `re.sub(r"[^a-zA-Z0-9\s]", "", s)`: characters are only removed, and only kept
      ones remain; a single character stays exactly when it is kept. */
  function DropSpecial(s: string): (r: string)
    ensures |r| <= |s|
    ensures forall i :: 0 <= i < |r| ==> Kept(r[i])
    ensures |s| == 1 ==> r == (if Kept(s[0]) then s else [])
    decreases |s|
  {
    if |s| == 0 then []
    else
      var h: string := if Kept(s[0]) then [s[0]] else [];
      var t := DropSpecial(s[1..]);
      assert forall i :: 0 <= i < |h + t| ==> Kept((h + t)[i]) by {
        forall i | 0 <= i < |h + t| ensures Kept((h + t)[i]) {
          if i >= |h| { assert (h + t)[i] == t[i - |h|]; }
        }
      }
      h + t
  }

  /** The first substitution leaves text made of kept characters alone. */
  lemma {:induction false} DropSpecialShape(s: string)
    ensures (forall i :: 0 <= i < |s| ==> Kept(s[i])) ==> DropSpecial(s) == s
    decreases |s|
  {
    if |s| > 0 {
      DropSpecialShape(s[1..]);
      if forall i :: 0 <= i < |s| ==> Kept(s[i]) {
        assert forall i :: 0 <= i < |s[1..]| ==> Kept(s[1..][i]) by {
          forall i | 0 <= i < |s[1..]| ensures Kept(s[1..][i]) { assert s[1..][i] == s[i + 1]; }
        }
        assert s == [s[0]] + s[1..];
      }
    }
  }

  /** The first substitution works character by character: on a concatenation it is
      the concatenation of its results on the two parts. Together with its effect on a
      single character this fixes it completely; in particular every whitespace
      character survives. */
  lemma {:induction false} DropSpecialConcat(a: string, b: string)
    ensures DropSpecial(a + b) == DropSpecial(a) + DropSpecial(b)
    decreases |a|
  {
    if |a| > 0 {
      assert (a + b)[1..] == a[1..] + b;
      DropSpecialConcat(a[1..], b);
    } else {
      assert a + b == b;
    }
  }

  /** Drops leading whitespace (`lstrip()`); what remains is a suffix of `s`. */
  function SkipSpace(s: string): (r: string)
    ensures |r| <= |s| && r == s[|s| - |r|..]
    ensures r == [] || !IsSpace(r[0])
    ensures |s| > 0 && IsSpace(s[0]) ==> |r| < |s|
    ensures |s| > 0 && !IsSpace(s[0]) ==> r == s
    decreases |s|
  {
    if |s| > 0 && IsSpace(s[0]) then SkipSpace(s[1..]) else s
  }

  /** Drops trailing whitespace (`rstrip()`); what remains is a prefix of `s`. */
  function StripRight(s: string): (r: string)
    ensures |r| <= |s| && r == s[..|r|]
    ensures r == [] || !IsSpace(r[|r| - 1])
    ensures |s| > 0 && !IsSpace(s[|s| - 1]) ==> r == s
    decreases |s|
  {
    if |s| > 0 && IsSpace(s[|s| - 1]) then StripRight(s[..|s| - 1]) else s
  }

  /** `re.sub(r"\s+", " ", s)`: each maximal run of whitespace becomes one space. */
  function Collapse(s: string): string
    decreases |s|
  {
    if |s| == 0 then []
    else if IsSpace(s[0]) then " " + Collapse(SkipSpace(s))
    else [s[0]] + Collapse(s[1..])
  }

  predicate AllKept(s: string) {
    forall i :: 0 <= i < |s| ==> Kept(s[i])
  }

  /** After the second substitution, whitespace appears only as single plain spaces,
      and text that starts with something else still starts with it. */
  lemma {:induction false} CollapseShape(s: string)
    ensures Collapsed(Collapse(s))
    ensures |s| > 0 && !IsSpace(s[0]) ==> |Collapse(s)| > 0 && Collapse(s)[0] == s[0]
    decreases |s|
  {
    if |s| > 0 {
      if IsSpace(s[0]) {
        var u := SkipSpace(s);
        CollapseShape(u);
        var t := Collapse(u);
        assert Collapse(s) == " " + t;
        assert |t| == 0 || !IsSpace(t[0]);
        CollapsedCons(' ', t);
      } else {
        var u := s[1..];
        CollapseShape(u);
        var t := Collapse(u);
        assert Collapse(s) == [s[0]] + t;
        CollapsedCons(s[0], t);
      }
    }
  }

  /** Putting a character that is no whitespace, or a space before something that is
      not whitespace, in front of collapsed text keeps it collapsed. */
  lemma CollapsedCons(c: char, t: string)
    requires Collapsed(t)
    requires c == ' ' ==> |t| == 0 || !IsSpace(t[0])
    requires c == ' ' || !IsSpace(c)
    ensures Collapsed([c] + t)
  {
    var r := [c] + t;
    assert forall i :: 1 <= i < |r| ==> r[i] == t[i - 1];
  }

  /** Over kept characters, the second substitution leaves only ASCII letters, digits
      and spaces. */
  lemma {:induction false} CollapseKeepsWords(s: string)
    requires AllKept(s)
    ensures forall i :: 0 <= i < |Collapse(s)| ==> Collapse(s)[i] == ' ' || IsAsciiAlnum(Collapse(s)[i])
    decreases |s|
  {
    if |s| > 0 {
      var u := if IsSpace(s[0]) then SkipSpace(s) else s[1..];
      assert u == s[|s| - |u|..];
      assert AllKept(u) by {
        assert forall i :: 0 <= i < |u| ==> u[i] == s[|s| - |u| + i];
      }
      CollapseKeepsWords(u);
      var h: string := if IsSpace(s[0]) then " " else [s[0]];
      var t := Collapse(u);
      assert Collapse(s) == h + t;
      assert forall i :: 1 <= i < |h + t| ==> (h + t)[i] == t[i - 1];
    }
  }

  /** `.strip()`. */
  function Strip(s: string): string {
    StripRight(SkipSpace(s))
  }

  /** The cleaning of one chunk, in the source's three steps. It removes only other
      characters and extra whitespace: every letter and digit of the chunk is kept,
      in order. */
  function CleanChunk(s: string): (r: string)
    ensures Alnums(r) == Alnums(s)
  {
    var d := DropSpecial(s);
    var c := Collapse(d);
    DropSpecialKeepsAlnums(s);
    CollapseKeepsAlnums(d);
    SkipSpaceKeepsAlnums(c);
    StripRightKeepsAlnums(SkipSpace(c));
    Strip(c)
  }

  /** A cleaned chunk holds only ASCII letters, digits and single spaces, and neither
      starts nor ends with a space. */
  lemma CleanChunkIsNormal(s: string)
    ensures Normal(CleanChunk(s))
  {
    CollapseKeptIsWords(DropSpecial(s));
    StripWords(Collapse(DropSpecial(s)));
  }

  /** Collapsing text made of kept characters leaves words. */
  lemma CollapseKeptIsWords(d: string)
    requires AllKept(d)
    ensures Words(Collapse(d))
  {
    CollapseShape(d);
    CollapseKeepsWords(d);
  }

  /** Stripping words leaves them in normal form. */
  lemma StripWords(c: string)
    requires Words(c)
    ensures Normal(Strip(c))
  {
    var u := SkipSpace(c);
    WordsSlice(c, |c| - |u|, |c|);
    var r := StripRight(u);
    WordsSlice(u, 0, |r|);
    assert |r| > 0 ==> r[0] == u[0];
  }

  /** Letters, digits and single spaces. */
  predicate Words(t: string) {
    (forall i :: 0 <= i < |t| ==> IsAsciiAlnum(t[i]) || t[i] == ' ') && NoDoubleSpace(t)
  }

  lemma WordsSlice(t: string, a: nat, b: nat)
    requires Words(t) && a <= b <= |t|
    ensures Words(t[a..b])
  {
    var w := t[a..b];
    assert forall i :: 0 <= i < |w| ==> w[i] == t[a + i];
    forall i | 0 <= i < |w| - 1 ensures !(w[i] == ' ' && w[i + 1] == ' ') {
      assert w[i] == t[a + i] && w[i + 1] == t[a + i + 1];
    }
  }

  /** The tail of collapsed text is collapsed, and a space in it is followed by a
      character that is no whitespace at all. */
  lemma CollapsedTail(t: string)
    requires Collapsed(t) && |t| > 0
    ensures Collapsed(t[1..])
    ensures IsSpace(t[0]) ==> t[0] == ' ' && (|t| == 1 || !IsSpace(t[1]))
  {
    var rest := t[1..];
    assert forall i :: 0 <= i < |rest| ==> rest[i] == t[i + 1];
  }

  lemma {:induction false} CollapseFixesCollapsed(t: string)
    requires Collapsed(t)
    ensures Collapse(t) == t
    decreases |t|
  {
    if |t| > 0 {
      var rest := t[1..];
      CollapsedTail(t);
      CollapseFixesCollapsed(rest);
      if IsSpace(t[0]) {
        assert SkipSpace(t) == SkipSpace(rest);
        assert SkipSpace(rest) == rest;
        assert Collapse(t) == " " + Collapse(rest);
        assert t == " " + rest;
      } else {
        assert Collapse(t) == [t[0]] + Collapse(rest);
        assert t == [t[0]] + rest;
      }
    }
  }

  /** Cleaning leaves an already clean chunk unchanged. */
  lemma CleanChunkFixesNormal(t: string)
    requires Normal(t)
    ensures CleanChunk(t) == t
  {
    DropSpecialShape(t);
    assert DropSpecial(t) == t;
    CollapseFixesCollapsed(t);
    if |t| > 0 {
      assert !IsSpace(t[0]) && !IsSpace(t[|t| - 1]);
    }
    assert SkipSpace(t) == t;
  }

  /** Cleaning is idempotent. */
  lemma CleanChunkIdempotent(s: string)
    ensures CleanChunk(CleanChunk(s)) == CleanChunk(s)
  {
    CleanChunkIsNormal(s);
    CleanChunkFixesNormal(CleanChunk(s));
  }

  /** The ASCII letters and digits of `s`, in order. */
  function Alnums(s: string): string
    decreases |s|
  {
    if |s| == 0 then [] else (if IsAsciiAlnum(s[0]) then [s[0]] else []) + Alnums(s[1..])
  }

  lemma {:induction false} AlnumsConcat(a: string, b: string)
    ensures Alnums(a + b) == Alnums(a) + Alnums(b)
    decreases |a|
  {
    if |a| > 0 {
      assert (a + b)[1..] == a[1..] + b;
      AlnumsConcat(a[1..], b);
    } else {
      assert a + b == b;
    }
  }

  lemma {:induction false} DropSpecialKeepsAlnums(s: string)
    ensures Alnums(DropSpecial(s)) == Alnums(s)
    decreases |s|
  {
    if |s| > 0 {
      DropSpecialKeepsAlnums(s[1..]);
      AlnumsConcat(if Kept(s[0]) then [s[0]] else [], DropSpecial(s[1..]));
    }
  }

  lemma {:induction false} SkipSpaceKeepsAlnums(s: string)
    ensures Alnums(SkipSpace(s)) == Alnums(s)
    decreases |s|
  {
    if |s| > 0 && IsSpace(s[0]) {
      SkipSpaceKeepsAlnums(s[1..]);
    }
  }

  lemma {:induction false} StripRightKeepsAlnums(s: string)
    ensures Alnums(StripRight(s)) == Alnums(s)
    decreases |s|
  {
    if |s| > 0 && IsSpace(s[|s| - 1]) {
      var init := s[..|s| - 1];
      StripRightKeepsAlnums(init);
      assert s == init + [s[|s| - 1]];
      AlnumsConcat(init, [s[|s| - 1]]);
      assert Alnums([s[|s| - 1]]) == [];
    }
  }

  lemma {:induction false} CollapseKeepsAlnums(s: string)
    ensures Alnums(Collapse(s)) == Alnums(s)
    decreases |s|
  {
    if |s| > 0 {
      if IsSpace(s[0]) {
        CollapseKeepsAlnums(SkipSpace(s));
        CollapseRunKeepsAlnums(s);
      } else {
        CollapseKeepsAlnums(s[1..]);
        CollapseCharKeepsAlnums(s);
      }
    }
  }

  /** The step of `CollapseKeepsAlnums` for a leading whitespace run. */
  lemma CollapseRunKeepsAlnums(s: string)
    requires |s| > 0 && IsSpace(s[0])
    requires Alnums(Collapse(SkipSpace(s))) == Alnums(SkipSpace(s))
    ensures Alnums(Collapse(s)) == Alnums(s)
  {
    SkipSpaceKeepsAlnums(s);
    AlnumsAfterSpace(Collapse(SkipSpace(s)));
  }

  /** A leading space adds no letter or digit. */
  lemma AlnumsAfterSpace(t: string)
    ensures Alnums(" " + t) == Alnums(t)
  {
    assert (" " + t)[1..] == t;
  }

  /** The step of `CollapseKeepsAlnums` for a leading character that is not
      whitespace. */
  lemma CollapseCharKeepsAlnums(s: string)
    requires |s| > 0 && !IsSpace(s[0])
    requires Alnums(Collapse(s[1..])) == Alnums(s[1..])
    ensures Alnums(Collapse(s)) == Alnums(s)
  {
    var u := s[1..];
    assert Collapse(s) == [s[0]] + Collapse(u);
    AlnumsConcat([s[0]], Collapse(u));
    assert s == [s[0]] + u;
    AlnumsConcat([s[0]], u);
  }

  /** A chunk cleans to "" exactly when it has no ASCII letter or digit. */
  lemma CleanChunkEmptyIff(s: string)
    ensures CleanChunk(s) == "" <==> Alnums(s) == ""
  {
    CleanChunkIsNormal(s);
    var t := CleanChunk(s);
    if t != "" {
      assert IsAsciiAlnum(t[0]);
      assert Alnums(t) == [t[0]] + Alnums(t[1..]);
    }
  }

  /** Normal text is collapsed: its only whitespace is single plain spaces. */
  lemma NormalIsCollapsed(t: string)
    requires Normal(t)
    ensures Collapsed(t) && AllKept(t)
  {
  }

  /** Stripping leading whitespace from text that ends with something else only
      touches its first part. */
  lemma {:induction false} SkipSpaceConcat(x: string, y: string)
    requires |x| > 0 && !IsSpace(x[|x| - 1])
    ensures SkipSpace(x + y) == SkipSpace(x) + y
    ensures |SkipSpace(x)| > 0 && SkipSpace(x)[|SkipSpace(x)| - 1] == x[|x| - 1]
    decreases |x|
  {
    if IsSpace(x[0]) {
      assert (x + y)[1..] == x[1..] + y;
      SkipSpaceConcat(x[1..], y);
    }
  }

  /** A whitespace run in front of text that starts with something else is stripped
      entirely. */
  lemma {:induction false} SkipSpaceRun(w: string, b: string)
    requires forall i :: 0 <= i < |w| ==> IsSpace(w[i])
    requires |b| > 0 && !IsSpace(b[0])
    ensures SkipSpace(w + b) == b
    decreases |w|
  {
    if |w| > 0 {
      assert (w + b)[1..] == w[1..] + b;
      SkipSpaceRun(w[1..], b);
    } else {
      assert w + b == b;
    }
  }

  /** No whitespace run crosses the end of text that ends with something else, so the
      collapse works on the two parts separately. */
  lemma {:induction false} CollapseConcat(x: string, y: string)
    requires |x| == 0 || !IsSpace(x[|x| - 1])
    ensures Collapse(x + y) == Collapse(x) + Collapse(y)
    decreases |x|
  {
    if |x| == 0 {
      assert x + y == y;
    } else if IsSpace(x[0]) {
      SkipSpaceConcat(x, y);
      CollapseConcat(SkipSpace(x), y);
      CollapseConcatRun(x, y);
    } else {
      CollapseConcat(x[1..], y);
      CollapseConcatChar(x, y);
    }
  }

  /** The step of `CollapseConcat` for a leading whitespace run. */
  lemma CollapseConcatRun(x: string, y: string)
    requires |x| > 0 && IsSpace(x[0]) && !IsSpace(x[|x| - 1])
    requires Collapse(SkipSpace(x) + y) == Collapse(SkipSpace(x)) + Collapse(y)
    ensures Collapse(x + y) == Collapse(x) + Collapse(y)
  {
    var u := SkipSpace(x);
    var z := x + y;
    SkipSpaceConcat(x, y);
    assert z[0] == x[0];
    assert Collapse(z) == " " + Collapse(u + y);
    assert Collapse(x) == " " + Collapse(u);
    AppendAssoc(" ", Collapse(u), Collapse(y));
  }

  lemma AppendAssoc(a: string, b: string, c: string)
    ensures a + (b + c) == (a + b) + c
  {
  }

  /** The step of `CollapseConcat` for a leading character that is not whitespace. */
  lemma CollapseConcatChar(x: string, y: string)
    requires |x| > 0 && !IsSpace(x[0])
    requires Collapse(x[1..] + y) == Collapse(x[1..]) + Collapse(y)
    ensures Collapse(x + y) == Collapse(x) + Collapse(y)
  {
    var t := x[1..];
    assert x == [x[0]] + t;
    AppendAssoc([x[0]], t, y);
    CollapseCons(x[0], t + y);
    CollapseCons(x[0], t);
    AppendAssoc([x[0]], Collapse(t), Collapse(y));
  }

  /** A leading character that is not whitespace is kept by the collapse. */
  lemma CollapseCons(c: char, t: string)
    requires !IsSpace(c)
    ensures Collapse([c] + t) == [c] + Collapse(t)
  {
    var z := [c] + t;
    assert z[0] == c && z[1..] == t;
  }

  /** Cleaning separates two clean words by exactly one space, whatever whitespace run
      stood between them: `"a \t\n b"` becomes `"a b"`. */
  lemma CleanChunkSeparates(a: string, w: string, b: string)
    requires Normal(a) && Normal(b) && a != "" && b != ""
    requires |w| > 0 && forall i :: 0 <= i < |w| ==> IsSpace(w[i])
    ensures CleanChunk(a + w + b) == a + " " + b
  {
    var s := a + w + b;
    SeparatedKept(a, w, b);
    DropSpecialShape(s);
    CollapseSeparates(a, w, b);
    var c := a + " " + b;
    assert c[0] == a[0] && c[|c| - 1] == b[|b| - 1];
    assert SkipSpace(c) == c;
  }

  /** Two normal texts and a whitespace run between them hold only kept characters. */
  lemma SeparatedKept(a: string, w: string, b: string)
    requires Normal(a) && Normal(b)
    requires forall i :: 0 <= i < |w| ==> IsSpace(w[i])
    ensures AllKept(a + w + b)
  {
    var s := a + w + b;
    forall i | 0 <= i < |s| ensures Kept(s[i]) {
      if i < |a| { assert s[i] == a[i]; }
      else if i < |a| + |w| { assert s[i] == w[i - |a|]; }
      else { assert s[i] == b[i - |a| - |w|]; }
    }
  }

  /** The collapse turns the whitespace run between two normal texts into one space
      and leaves the texts alone. */
  lemma CollapseSeparates(a: string, w: string, b: string)
    requires Normal(a) && Normal(b) && a != "" && b != ""
    requires |w| > 0 && forall i :: 0 <= i < |w| ==> IsSpace(w[i])
    ensures Collapse(a + w + b) == a + " " + b
  {
    NormalIsCollapsed(a);
    NormalIsCollapsed(b);
    AppendAssoc(a, w, b);
    CollapseConcat(a, w + b);
    CollapseFixesCollapsed(a);
    SkipSpaceRun(w, b);
    assert Collapse(w + b) == " " + Collapse(b);
    CollapseFixesCollapsed(b);
    AppendAssoc(a, " ", b);
  }

  /** A value in the list handed to `clean_text`: a string, or any other Python value
      (on which `re.sub` raises `TypeError`). */
  datatype Item = Text(s: string) | Opaque(repr: string)

  /** One iteration of `clean_text`'s loop: a string is cleaned to normal form,
      keeping its letters and digits; a value whose cleaning raises is kept as it
      was. */
  function CleanItem(x: Item): Item {
    match x
    case Text(s) => Text(CleanChunk(s))
    case Opaque(_) => x
  }

  /** `clean_text(texts)`: one entry per input, at the same position; every string is
      cleaned to normal form keeping its letters and digits (an empty result is kept,
      not dropped); a value whose cleaning raises is kept unmodified. */
  method CleanText(texts: seq<Item>) returns (cleaned: seq<Item>)
    ensures |cleaned| == |texts|
    ensures forall i :: 0 <= i < |texts| ==> cleaned[i] == CleanItem(texts[i])
    ensures forall i :: 0 <= i < |texts| && texts[i].Text? ==>
              cleaned[i].Text? && Normal(cleaned[i].s) && Alnums(cleaned[i].s) == Alnums(texts[i].s)
    ensures forall i :: 0 <= i < |texts| && texts[i].Opaque? ==> cleaned[i] == texts[i]
  {
    cleaned := [];
    for i := 0 to |texts|
      invariant |cleaned| == i
      invariant forall j :: 0 <= j < i ==> cleaned[j] == CleanItem(texts[j])
    {
      cleaned := cleaned + [CleanItem(texts[i])];
    }
    CleanItemsNormal(texts, cleaned);
  }

  /** Entries cleaned one by one are in normal form and keep their letters and
      digits; the others are left as they were. */
  lemma CleanItemsNormal(texts: seq<Item>, cleaned: seq<Item>)
    requires |cleaned| == |texts|
    requires forall i :: 0 <= i < |texts| ==> cleaned[i] == CleanItem(texts[i])
    ensures forall i :: 0 <= i < |texts| && texts[i].Text? ==>
              cleaned[i].Text? && Normal(cleaned[i].s) && Alnums(cleaned[i].s) == Alnums(texts[i].s)
    ensures forall i :: 0 <= i < |texts| && texts[i].Opaque? ==> cleaned[i] == texts[i]
  {
    forall i | 0 <= i < |texts| && texts[i].Text?
      ensures cleaned[i].Text? && Normal(cleaned[i].s) && Alnums(cleaned[i].s) == Alnums(texts[i].s)
    {
      CleanChunkIsNormal(texts[i].s);
    }
  }

  const ProcessingErrorPrefix := "An error occurred while processing the document: "

  /** The frame `chunkCreator` builds: one column named "CHUNKS". */
  function ChunksFrame(rows: seq<string>): Frame {
    Frame(["CHUNKS"], [rows])
  }

  /** Every chunk cleaned, in order. */
  function CleanAll(chunks: seq<string>): (r: seq<string>)
    ensures |r| == |chunks|
    ensures forall i :: 0 <= i < |chunks| ==> r[i] == CleanChunk(chunks[i])
  {
    seq(|chunks|, i requires 0 <= i < |chunks| => CleanChunk(chunks[i]))
  }

  /** What `chunkCreator(texts)` returns or raises: the splitter's exception wrapped as
      `RuntimeError`, or a table whose `CHUNKS` column holds every chunk cleaned, in
      splitter order. */
  function Chunked(p: DocumentProcessor, texts: string, split: Splitter): (r: Result<Frame>)
    ensures r.Err? <==> split(texts, p.chunkSize, p.overlap).SplitFailed?
    ensures r.Err? ==> r.error == RuntimeError(ProcessingErrorPrefix + split(texts, p.chunkSize, p.overlap).message)
    ensures r.Ok? ==> Column(r.value, "CHUNKS") == Some(CleanAll(split(texts, p.chunkSize, p.overlap).chunks))
  {
    match split(texts, p.chunkSize, p.overlap)
    case SplitFailed(m) => Err(RuntimeError(ProcessingErrorPrefix + m))
    case Chunks(cs) => Ok(ChunksFrame(CleanAll(cs)))
  }

  /** `chunkCreator(texts)`: the splitter, configured with the processor's chunk size and
      overlap, then `clean_text`; one "CHUNKS" row per splitter chunk, in splitter
      order, each in normal form; a failure is wrapped as `RuntimeError`. */
  method ChunkCreator(p: DocumentProcessor, texts: string, split: Splitter) returns (r: Result<Frame>)
    ensures r == Chunked(p, texts, split)
    ensures split(texts, p.chunkSize, p.overlap).SplitFailed? ==>
              r == Err(RuntimeError(ProcessingErrorPrefix + split(texts, p.chunkSize, p.overlap).message))
    ensures split(texts, p.chunkSize, p.overlap).Chunks? ==>
              var chunks := split(texts, p.chunkSize, p.overlap).chunks;
              && r.Ok? && r.value.columns == ["CHUNKS"] && |r.value.data| == 1
              && |r.value.data[0]| == |chunks|
              && forall i :: 0 <= i < |chunks| ==>
                   r.value.data[0][i] == CleanChunk(chunks[i]) && Normal(r.value.data[0][i])
  {
    match split(texts, p.chunkSize, p.overlap)
    case SplitFailed(m) =>
      r := Err(RuntimeError(ProcessingErrorPrefix + m));
    case Chunks(chunks) =>
      var rows := CleanChunks(chunks);
      CleanAllNormal(chunks);
      r := Ok(ChunksFrame(rows));
  }

  /** `clean_text` applied to the splitter's chunks, all of which are strings. */
  method CleanChunks(chunks: seq<string>) returns (rows: seq<string>)
    ensures rows == CleanAll(chunks)
  {
    var items := seq(|chunks|, i requires 0 <= i < |chunks| => Text(chunks[i]));
    var cleaned := CleanText(items);
    assert forall i :: 0 <= i < |cleaned| ==> cleaned[i] == Text(CleanChunk(chunks[i]));
    rows := seq(|cleaned|, i requires 0 <= i < |cleaned| => cleaned[i].s);
  }

  /** Every cleaned chunk is in normal form. */
  lemma CleanAllNormal(chunks: seq<string>)
    ensures forall i :: 0 <= i < |chunks| ==> Normal(CleanAll(chunks)[i])
  {
    forall i | 0 <= i < |chunks| ensures Normal(CleanAll(chunks)[i]) {
      CleanChunkIsNormal(chunks[i]);
    }
  }
}
