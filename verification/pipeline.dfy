/** The report pipeline: split a pathology report into paragraphs, ask the
    classifier whether it is an eligible primary cancer excision and for
    which organ, build a rough JSON rendering of it, then run every
    organ-specific extractor the registry lists for that organ and merge
    their plain-dict results into one `cancer_data` dict.

    The language-model calls are not modelled: the backend is a parameter
    holding one total function per call, each answering a value or an
    exception message. */
module Pipeline {
  import opened Values
  import opened Common
  import ModelList
  import PredictionDump

  // ---------------------------------------------------------------------
  // Paragraphs: `report.split('\n\n')`, then `strip` and drop the blank ones
  // ---------------------------------------------------------------------

  /** Python's `str.isspace` for one character: the ASCII controls TAB to CR,
      the four separators FS to US, SPACE, NEL, NO-BREAK SPACE and the
      Unicode space separators, line and paragraph separators. */
  predicate IsSpace(c: char) {
    ('\t' <= c <= '\r') || ('\U{1C}' <= c <= '\U{1F}') || c == ' ' || c == '\U{85}' || c == '\U{A0}'
    || c == '\U{1680}' || ('\U{2000}' <= c <= '\U{200A}') || c == '\U{2028}' || c == '\U{2029}'
    || c == '\U{202F}' || c == '\U{205F}' || c == '\U{3000}'
  }

  predicate AllSpace(s: string) {
    forall k | 0 <= k < |s| :: IsSpace(s[k])
  }

  /** `s` with its leading whitespace removed. */
  function StripStart(s: string): (r: string)
    ensures |r| <= |s| && r == s[|s| - |r|..]
    ensures r == [] || !IsSpace(r[0])
    ensures AllSpace(s[..|s| - |r|])
  {
    if s != [] && IsSpace(s[0]) then
      var r := StripStart(s[1..]);
      assert s[1..][|s| - 1 - |r|..] == s[|s| - |r|..];
      assert forall k | 1 <= k < |s| - |r| :: s[k] == s[1..][..|s| - 1 - |r|][k - 1];
      r
    else s
  }

  /** `s` with its trailing whitespace removed. */
  function StripEnd(s: string): (r: string)
    ensures |r| <= |s| && r == s[..|r|]
    ensures r == [] || !IsSpace(r[|r| - 1])
    ensures AllSpace(s[|r|..])
  {
    if s != [] && IsSpace(s[|s| - 1]) then
      var r := StripEnd(s[..|s| - 1]);
      assert forall k | |r| <= k < |s| - 1 :: s[k] == s[..|s| - 1][k];
      r
    else s
  }

  /** Python's `str.strip()` with no argument: the longest slice of `s`
      that neither starts nor ends with whitespace, found by removing only
      whitespace from the two ends. */
  function Strip(s: string): (r: string)
    ensures r == [] || (!IsSpace(r[0]) && !IsSpace(r[|r| - 1]))
    ensures exists i, j | 0 <= i <= j <= |s| ::
      r == s[i..j] && AllSpace(s[..i]) && AllSpace(s[j..])
  {
    var t := StripStart(s);
    var r := StripEnd(t);
    StripSlice(s, t, r);
    assert r != [] ==> r[0] == t[0];
    r
  }

  lemma StripSlice(s: string, t: string, r: string)
    requires |t| <= |s| && t == s[|s| - |t|..] && AllSpace(s[..|s| - |t|])
    requires |r| <= |t| && r == t[..|r|] && AllSpace(t[|r|..])
    ensures r == s[|s| - |t|..|s| - |t| + |r|]
    ensures AllSpace(s[|s| - |t| + |r|..])
  {
    var i := |s| - |t|;
    var j := i + |r|;
    assert s[i..][..|r|] == s[i..j];
    assert s[j..] == t[|r|..];
  }

  /** Stripping removes everything exactly when there is nothing but whitespace. */
  lemma StripEmpty(s: string)
    ensures Strip(s) == [] <==> AllSpace(s)
  {
    var t := StripStart(s);
    assert Strip(s) == StripEnd(t);
    if t == [] {
      assert s[..|s| - |t|] == s;
    } else {
      assert t[0] == s[|s| - |t|];
      assert t[0..] == t;
    }
  }

  /** A stripped string strips to itself. */
  lemma StripIdempotent(s: string)
    ensures Strip(Strip(s)) == Strip(s)
  {
  }

  const Separator: string := "\n\n"

  /** Whether `s` holds the separator "\n\n" anywhere. */
  predicate HasSeparator(s: string) {
    exists k | 0 <= k < |s| - 1 :: s[k] == '\n' && s[k + 1] == '\n'
  }

  /** Python's `s.split("\n\n")`: scan left to right and cut at each
      separator found, so three newlines in a row cut at the first two. */
  function Split(s: string): (r: seq<string>)
    ensures |r| >= 1
    ensures |r[0]| <= |s| && r[0] == s[..|r[0]|]
    ensures r[0] == [] ==> s == [] || (|s| >= 2 && s[0] == '\n' && s[1] == '\n')
  {
    if |s| < 2 then [s]
    else if s[0] == '\n' && s[1] == '\n' then [""] + Split(s[2..])
    else
      var rest := Split(s[1..]);
      [[s[0]] + rest[0]] + rest[1..]
  }

  /** The inverse of `Split`: `"\n\n".join(pieces)`. */
  function Join(pieces: seq<string>): string
    requires |pieces| >= 1
  {
    if |pieces| == 1 then pieces[0] else pieces[0] + Separator + Join(pieces[1..])
  }

  /** `Split` is Python's split: joining the pieces gives the text back, no
      piece holds the separator, and no piece but the last ends with a
      newline (otherwise the separator would have been found one character
      earlier). These three facts determine the pieces. */
  lemma SplitSpec(s: string)
    ensures Join(Split(s)) == s
    ensures forall p | p in Split(s) :: !HasSeparator(p)
    ensures forall i | 0 <= i < |Split(s)| - 1 :: Split(s)[i] == [] || Split(s)[i][|Split(s)[i]| - 1] != '\n'
  {
    SplitJoin(s);
    SplitNoSeparator(s);
    SplitLeftmost(s);
  }

  lemma {:induction false} SplitJoin(s: string)
    ensures Join(Split(s)) == s
    decreases |s|
  {
    if |s| < 2 {
    } else if s[0] == '\n' && s[1] == '\n' {
      SplitJoin(s[2..]);
      var rest := Split(s[2..]);
      assert ([""] + rest)[1..] == rest;
      assert Join([""] + rest) == "" + Separator + Join(rest);
      assert s == Separator + s[2..];
    } else {
      SplitJoin(s[1..]);
      JoinConsFirst(s[0], Split(s[1..]));
      assert s == [s[0]] + s[1..];
    }
  }

  /** Prefixing a character to the first piece prefixes it to the join. */
  lemma {:induction false} JoinConsFirst(c: char, pieces: seq<string>)
    requires |pieces| >= 1
    ensures Join([[c] + pieces[0]] + pieces[1..]) == [c] + Join(pieces)
  {
    var r := [[c] + pieces[0]] + pieces[1..];
    if |pieces| > 1 {
      assert r[1..] == pieces[1..];
      var tail := Separator + Join(pieces[1..]);
      assert Join(r) == ([c] + pieces[0]) + tail;
      assert Join(pieces) == pieces[0] + tail;
      assert ([c] + pieces[0]) + tail == [c] + (pieces[0] + tail);
    } else {
      assert Join(r) == [c] + pieces[0];
    }
  }

  lemma {:induction false} SplitNoSeparator(s: string)
    ensures forall p | p in Split(s) :: !HasSeparator(p)
    decreases |s|
  {
    if |s| < 2 {
    } else if s[0] == '\n' && s[1] == '\n' {
      SplitNoSeparator(s[2..]);
      assert forall p | p in Split(s) :: p == "" || p in Split(s[2..]);
    } else {
      SplitNoSeparator(s[1..]);
      var rest := Split(s[1..]);
      var first := [s[0]] + rest[0];
      // The new first piece gains one character and no separator: a
      // leading newline is followed by a character other than a newline.
      assert s[0] == '\n' ==> rest[0] != [] && rest[0][0] == s[1];
      assert rest[0] in rest;
      forall k | 0 <= k < |first| - 1 ensures !(first[k] == '\n' && first[k + 1] == '\n') {
        if k > 0 {
          assert first[k] == rest[0][k - 1] && first[k + 1] == rest[0][k];
        }
      }
      forall p | p in Split(s) ensures !HasSeparator(p) {
        if p != first {
          assert p in rest;
        }
      }
    }
  }

  lemma {:induction false} SplitLeftmost(s: string)
    ensures NoPieceEndsInNewline(Split(s))
    decreases |s|
  {
    if |s| >= 2 {
      if s[0] == '\n' && s[1] == '\n' {
        SplitLeftmost(s[2..]);
        LeftmostAfterCut(Split(s[2..]));
      } else {
        SplitLeftmost(s[1..]);
        var rest := Split(s[1..]);
        assert rest[0] == [] ==> s[1..][0] == '\n';
        LeftmostAfterChar(s[0], rest);
      }
    }
  }

  /** No piece but the last ends with a newline. */
  predicate NoPieceEndsInNewline(r: seq<string>) {
    forall i | 0 <= i < |r| - 1 :: r[i] == [] || r[i][|r[i]| - 1] != '\n'
  }

  lemma LeftmostAfterCut(rest: seq<string>)
    requires NoPieceEndsInNewline(rest)
    ensures NoPieceEndsInNewline([""] + rest)
  {
    var r := [""] + rest;
    forall i | 0 <= i < |r| - 1 ensures r[i] == [] || r[i][|r[i]| - 1] != '\n' {
      if i > 0 {
        assert r[i] == rest[i - 1];
      }
    }
  }

  lemma LeftmostAfterChar(c: char, rest: seq<string>)
    requires |rest| >= 1 && NoPieceEndsInNewline(rest)
    requires rest[0] == [] ==> c != '\n'
    ensures NoPieceEndsInNewline([[c] + rest[0]] + rest[1..])
  {
    var first := [c] + rest[0];
    var r := [first] + rest[1..];
    assert rest[0] != [] ==> first[|first| - 1] == rest[0][|rest[0]| - 1];
    forall i | 1 <= i < |r| - 1 ensures r[i] == [] || r[i][|r[i]| - 1] != '\n' {
      assert r[i] == rest[i];
    }
  }

  /** The non-blank pieces, stripped, in order. */
  function KeepParagraphs(pieces: seq<string>): (r: seq<string>)
    ensures |r| <= |pieces|
  {
    if pieces == [] then []
    else
      var p := Strip(pieces[0]);
      (if p == [] then [] else [p]) + KeepParagraphs(pieces[1..])
  }

  /** `[p.strip() for p in report.split('\n\n') if p.strip()]`. */
  function Paragraphs(report: string): seq<string> {
    KeepParagraphs(Split(report))
  }

  /** The paragraphs are the report's non-blank pieces, each stripped: a
      piece is dropped exactly when it is all whitespace. */
  lemma KeepParagraphsSpec(pieces: seq<string>, a: seq<string>, b: seq<string>, piece: string)
    ensures |KeepParagraphs(pieces)| == |pieces| - CountBlank(pieces)
    ensures forall p | p in KeepParagraphs(pieces) :: p != [] && Strip(p) == p
    ensures forall p | p in KeepParagraphs(pieces) :: exists q | q in pieces :: !AllSpace(q) && p == Strip(q)
    ensures KeepParagraphs([piece]) == if AllSpace(piece) then [] else [Strip(piece)]
    ensures KeepParagraphs(a + b) == KeepParagraphs(a) + KeepParagraphs(b)
  {
    KeepParagraphsCount(pieces);
    KeepParagraphsStripped(pieces);
    KeepParagraphsFrom(pieces);
    StripEmpty(piece);
    assert [piece][1..] == [];
    KeepParagraphsAppend(a, b);
  }

  /** The comprehension works piece by piece: on two runs of pieces it
      gives the paragraphs of the first run, then those of the second. */
  lemma {:induction false} KeepParagraphsAppend(a: seq<string>, b: seq<string>)
    ensures KeepParagraphs(a + b) == KeepParagraphs(a) + KeepParagraphs(b)
    decreases |a|
  {
    if a == [] {
      assert a + b == b;
    } else {
      var first, rest := a[0], a[1..];
      assert a == [first] + rest;
      assert a + b == [first] + (rest + b);
      KeepParagraphsAppend(rest, b);
      KeepFirstPiece(first, rest);
      KeepFirstPiece(first, rest + b);
      ShiftFirst(KeepParagraphs([first]), KeepParagraphs(rest), KeepParagraphs(b),
        KeepParagraphs(a), KeepParagraphs(rest + b), KeepParagraphs(a + b));
    }
  }

  /** The algebra of one induction step of `KeepParagraphsAppend`. */
  lemma ShiftFirst(k1: seq<string>, kr: seq<string>, kb: seq<string>, ka: seq<string>, krb: seq<string>, kab: seq<string>)
    requires ka == k1 + kr && krb == kr + kb && kab == k1 + krb
    ensures kab == ka + kb
  {
  }

  /** The first piece's paragraphs come before those of the rest. */
  lemma KeepFirstPiece(first: string, rest: seq<string>)
    ensures KeepParagraphs([first] + rest) == KeepParagraphs([first]) + KeepParagraphs(rest)
  {
    assert ([first] + rest)[0] == [first][0];
    assert ([first] + rest)[1..] == rest;
    assert [first][1..] == [];
  }

  lemma {:induction false} KeepParagraphsCount(pieces: seq<string>)
    ensures |KeepParagraphs(pieces)| == |pieces| - CountBlank(pieces)
  {
    if pieces != [] {
      KeepParagraphsCount(pieces[1..]);
      StripEmpty(pieces[0]);
    }
  }

  lemma {:induction false} KeepParagraphsStripped(pieces: seq<string>)
    ensures forall p | p in KeepParagraphs(pieces) :: p != [] && Strip(p) == p
  {
    if pieces != [] {
      var first := pieces[0];
      var rest := pieces[1..];
      KeepParagraphsStripped(rest);
      var y := Strip(first);
      StripIdempotent(first);
      assert KeepParagraphs(pieces) == (if y == [] then [] else [y]) + KeepParagraphs(rest);
      ConsStripped(y, KeepParagraphs(rest));
    }
  }

  lemma ConsStripped(y: string, ps: seq<string>)
    requires Strip(y) == y
    requires forall p | p in ps :: p != [] && Strip(p) == p
    ensures forall p | p in (if y == [] then [] else [y]) + ps :: p != [] && Strip(p) == p
  {
  }

  lemma {:induction false} KeepParagraphsFrom(pieces: seq<string>)
    ensures forall p | p in KeepParagraphs(pieces) :: exists q | q in pieces :: !AllSpace(q) && p == Strip(q)
  {
    if pieces != [] {
      var first := pieces[0];
      var rest := pieces[1..];
      KeepParagraphsFrom(rest);
      StripEmpty(first);
      assert KeepParagraphs(pieces) == (if Strip(first) == [] then [] else [Strip(first)]) + KeepParagraphs(rest);
      forall p | p in KeepParagraphs(pieces) ensures exists q | q in pieces :: !AllSpace(q) && p == Strip(q) {
        if p in KeepParagraphs(rest) {
          var q :| q in rest && !AllSpace(q) && p == Strip(q);
          assert q in pieces;
        } else {
          assert p == Strip(first) && first in pieces;
        }
      }
    }
  }

  /** How many pieces are all whitespace. */
  function CountBlank(pieces: seq<string>): nat {
    if pieces == [] then 0 else (if AllSpace(pieces[0]) then 1 else 0) + CountBlank(pieces[1..])
  }

  /** A separator at the front cuts off an empty first piece. */
  lemma SplitAtSeparator(rest: string)
    ensures Split(Separator + rest) == [""] + Split(rest)
  {
    assert (Separator + rest)[2..] == rest;
  }

  /** A character other than a newline joins the first piece. */
  lemma SplitAtChar(c: char, rest: string)
    requires c != '\n' && rest != []
    ensures Split([c] + rest) == [[c] + Split(rest)[0]] + Split(rest)[1..]
  {
    assert ([c] + rest)[1..] == rest;
  }

  /** A piece that is one visible character is kept as it is. */
  lemma KeepLetter(c: char, rest: seq<string>)
    requires !IsSpace(c)
    ensures KeepParagraphs([[c]] + rest) == [[c]] + KeepParagraphs(rest)
  {
    assert ([[c]] + rest)[1..] == rest;
  }

  /** A piece of whitespace is dropped. */
  lemma KeepBlank(p: string, rest: seq<string>)
    requires AllSpace(p)
    ensures KeepParagraphs([p] + rest) == KeepParagraphs(rest)
  {
    StripEmpty(p);
    assert ([p] + rest)[1..] == rest;
  }

  /** A report whose third block is only spaces: the blank block is dropped
      after the split, and the other blocks are kept in order. */
  lemma ParagraphsExample()
    ensures Split("A\n\nB\n\n  \n\nC") == ["A", "B", "  ", "C"]
    ensures Paragraphs("A\n\nB\n\n  \n\nC") == ["A", "B", "C"]
  {
    SplitExample();
    KeepExample();
  }

  lemma SplitExample()
    ensures Split("A\n\nB\n\n  \n\nC") == ["A", "B", "  ", "C"]
  {
    var s4 := "  \n\nC";
    SplitExampleTail();
    var s5 := Separator + s4;
    SplitAtSeparator(s4);
    assert Split(s5) == ["", "  ", "C"];
    var s6 := ['B'] + s5;
    SplitAtChar('B', s5);
    assert Split(s6) == ["B", "  ", "C"];
    var s7 := Separator + s6;
    SplitAtSeparator(s6);
    assert Split(s7) == ["", "B", "  ", "C"];
    var s8 := ['A'] + s7;
    SplitAtChar('A', s7);
    assert Split(s8) == ["A", "B", "  ", "C"];
    assert s8 == "A\n\nB\n\n  \n\nC";
  }

  lemma SplitExampleTail()
    ensures Split("  \n\nC") == ["  ", "C"]
  {
    var s1 := "C";
    var s2 := Separator + s1;
    SplitAtSeparator(s1);
    assert Split(s2) == ["", "C"];
    var s3 := [' '] + s2;
    SplitAtChar(' ', s2);
    assert Split(s3) == [" ", "C"];
    var s4 := [' '] + s3;
    SplitAtChar(' ', s3);
    assert [' '] + " " == "  ";
    assert s4 == "  \n\nC";
  }

  lemma KeepExample()
    ensures KeepParagraphs(["A", "B", "  ", "C"]) == ["A", "B", "C"]
  {
    KeepFour('A', 'B', "  ", 'C');
  }

  /** Three one-character paragraphs around a blank piece. */
  lemma KeepFour(a: char, b: char, blank: string, c: char)
    requires !IsSpace(a) && !IsSpace(b) && !IsSpace(c) && AllSpace(blank)
    ensures KeepParagraphs([[a], [b], blank, [c]]) == [[a], [b], [c]]
  {
    var none: seq<string> := [];
    var cs := [[c]] + none;
    KeepLetter(c, none);
    var bc := [blank] + cs;
    KeepBlank(blank, cs);
    var bbc := [[b]] + bc;
    KeepLetter(b, bc);
    var abbc := [[a]] + bbc;
    KeepLetter(a, bbc);
    assert KeepParagraphs(abbc) == [[a]] + ([[b]] + ([[c]] + KeepParagraphs(none)));
    FourPieces([a], [b], blank, [c]);
  }

  lemma FourPieces(a: string, b: string, blank: string, c: string)
    ensures [a] + ([b] + ([blank] + ([c] + []))) == [a, b, blank, c]
    ensures [a] + ([b] + ([c] + [])) == [a, b, c]
  {
  }

  // ---------------------------------------------------------------------
  // The backend
  // ---------------------------------------------------------------------

  /** An organ-specific extractor: given the full report text and the
      rough JSON rendering, a prediction, or the message of the exception
      it raised. */
  type Extractor = (string, Value) -> Result<Value, string>

  /** The language-model calls `forward` makes, as total functions: the
      eligibility classifier over the paragraphs, the JSON renderer over the
      paragraphs and the category, and the extractor classes visible by
      name in the module's globals. */
  datatype Backend = Backend(
    classify: seq<string> -> Result<Classification, string>,
    jsonize: (seq<string>, Option<Category>) -> Result<Value, string>,
    extractors: map<string, Extractor>)

  /** The extractor names for a category: `organmodels.get(category, [])`;
      no category looks up `None`, which is not a key. */
  function ExtractorsFor(category: Option<Category>): (ids: seq<string>)
    ensures ids == [] <==> category.None? || category == Some(Others)
    ensures category.Some? ==> ids == ModelList.Get(CategoryName(category.value))
  {
    match category
    case None => []
    case Some(c) =>
      ModelList.RegistryCoversOrgans(c);
      ModelList.Get(CategoryName(c))
  }

  /** What running one extractor name gives. */
  datatype Outcome =
    | Unresolved            // no such name in the globals
    | Failed(message: string)
    | Extracted(data: Entries)

  /** Look the name up, call the extractor with the full report and the
      JSON rendering, and normalise its prediction with
      `dump_prediction_plain`. */
  function RunExtractor(id: string, report: string, json: Value, extractors: map<string, Extractor>): (o: Outcome)
    ensures o.Extracted? ==> DistinctKeys(o.data)
  {
    if id !in extractors then Unresolved
    else
      match extractors[id](report, json)
      case Err(e) => Failed(e)
      case Ok(pred) => Extracted(PredictionDump.DumpPredictionPlain(pred).entries)
  }

  /** The outcomes of the extractor names, in order. */
  function Outcomes(ids: seq<string>, report: string, json: Value, extractors: map<string, Extractor>): (os: seq<Outcome>)
    ensures |os| == |ids|
    ensures forall i | 0 <= i < |ids| :: os[i] == RunExtractor(ids[i], report, json, extractors)
    ensures WellFormed(os)
  {
    seq(|ids|, i requires 0 <= i < |ids| => RunExtractor(ids[i], report, json, extractors))
  }

  /** Every extracted result is a real dict. */
  predicate WellFormed(os: seq<Outcome>) {
    forall i | 0 <= i < |os| :: os[i].Extracted? ==> DistinctKeys(os[i].data)
  }

  /** `cancer_data` after the loop: each extracted dict merged in turn with
      `dict.update`; unresolved and failing names change nothing. */
  function Merge(os: seq<Outcome>): Entries
    decreases |os|
  {
    if os == [] then [] else Absorb(Merge(os[..|os| - 1]), os[|os| - 1])
  }

  /** One step of the loop: `cancer_data.update(data)` for an extracted dict. */
  function Absorb(acc: Entries, o: Outcome): Entries {
    match o
    case Extracted(data) => Update(acc, data)
    case _ => acc
  }

  /** The keys some outcome returned. */
  function ExtractedKeys(os: seq<Outcome>): set<Key> {
    set i, k | 0 <= i < |os| && os[i].Extracted? && k in KeySet(os[i].data) :: k
  }

  lemma MergeStep(os: seq<Outcome>, i: nat)
    requires i < |os|
    ensures Merge(os[..i + 1]) == Absorb(Merge(os[..i]), os[i])
  {
    assert os[..i + 1][..i] == os[..i];
  }

  /** `cancer_data` is a real dict holding exactly the keys the extractors returned. */
  lemma {:induction false} MergeKeys(os: seq<Outcome>)
    ensures DistinctKeys(Merge(os))
    ensures KeySet(Merge(os)) == ExtractedKeys(os)
    decreases |os|
  {
    if os != [] {
      var n := |os| - 1;
      MergeKeys(os[..n]);
      assert forall i | 0 <= i < n :: os[..n][i] == os[i];
      if os[n].Extracted? {
        assert ExtractedKeys(os) == ExtractedKeys(os[..n]) + KeySet(os[n].data);
      } else {
        assert ExtractedKeys(os) == ExtractedKeys(os[..n]);
      }
    }
  }

  /** When several extractors return the same key, the last one to return
      it decides its value in `cancer_data`. */
  lemma {:induction false} MergeLastWriteWins(os: seq<Outcome>, i: nat, k: Key)
    requires WellFormed(os)
    requires i < |os| && os[i].Extracted? && k in KeySet(os[i].data)
    requires forall j | i < j < |os| :: !(os[j].Extracted? && k in KeySet(os[j].data))
    ensures Lookup(Merge(os), k) == Lookup(os[i].data, k)
    decreases |os|
  {
    var n := |os| - 1;
    if i < n {
      assert forall j | 0 <= j < n :: os[..n][j] == os[j];
      MergeLastWriteWins(os[..n], i, k);
      if os[n].Extracted? {
        UpdateLookup(Merge(os[..n]), os[n].data, k);
      }
    } else {
      UpdateLookup(Merge(os[..n]), os[n].data, k);
    }
  }

  /** An extractor name that is unknown or whose call fails has no effect
      on `cancer_data`: the result is the one without it. */
  lemma {:induction false} MergeSkipsIdle(a: seq<Outcome>, o: Outcome, b: seq<Outcome>)
    requires !o.Extracted?
    ensures Merge(a + [o] + b) == Merge(a + b)
    decreases |b|
  {
    if b == [] {
      var with := a + [o] + b;
      assert with[..|with| - 1] == a;
      assert a + b == a;
    } else {
      var m := |b| - 1;
      MergeSkipsIdle(a, o, b[..m]);
      var with := a + [o] + b;
      var without := a + b;
      assert with[..|with| - 1] == a + [o] + b[..m];
      assert without[..|without| - 1] == a + b[..m];
      MergeLast(with, without);
    }
  }

  /** Two outcome lists that agree on their last outcome and on the merge
      of everything before it merge alike. */
  lemma MergeLast(x: seq<Outcome>, y: seq<Outcome>)
    requires x != [] && y != [] && x[|x| - 1] == y[|y| - 1]
    requires Merge(x[..|x| - 1]) == Merge(y[..|y| - 1])
    ensures Merge(x) == Merge(y)
  {
  }

  // ---------------------------------------------------------------------
  // The output document and the log
  // ---------------------------------------------------------------------

  /** The `cancer_category` field: the literal text, or None. */
  function CategoryValue(category: Option<Category>): Value {
    match category
    case Some(c) => Str(CategoryName(c))
    case None => Null
  }

  /** The `cancer_category_others_description` field, copied as given. */
  function DescriptionValue(description: Option<string>): Value {
    match description
    case Some(d) => Str(d)
    case None => Null
  }

  /** The answer for a report that is not an eligible cancer excision. */
  function NotEligibleDoc(): Value {
    Dict([(StrKey("cancer_excision_report"), Bool(false)),
          (StrKey("cancer_category"), Null),
          (StrKey("cancer_data"), Dict([]))])
  }

  /** The answer for an eligible report, with the merged extractor data. */
  function EligibleDoc(c: Classification, data: Entries): Value {
    Dict([(StrKey("cancer_excision_report"), Bool(true)),
          (StrKey("cancer_category"), CategoryValue(c.cancerCategory)),
          (StrKey("cancer_category_others_description"), DescriptionValue(c.othersDescription)),
          (StrKey("cancer_data"), Dict(data))])
  }

  /** The rough JSON rendering handed to every extractor; a failing call is
      swallowed and gives the empty dict. */
  function JsonReport(paragraphs: seq<string>, category: Option<Category>, backend: Backend): Value {
    match backend.jsonize(paragraphs, category)
    case Ok(output) => output
    case Err(_) => Dict([])
  }

  /** What `forward` returns: the document, or the classifier's exception,
      which nothing catches. */
  function ForwardDoc(report: string, backend: Backend): Result<Value, string> {
    var paragraphs := Paragraphs(report);
    match backend.classify(paragraphs)
    case Err(e) => Err(e)
    case Ok(c) =>
      if !c.cancerExcisionReport then Ok(NotEligibleDoc())
      else
        var json := JsonReport(paragraphs, c.cancerCategory, backend);
        var ids := ExtractorsFor(c.cancerCategory);
        Ok(EligibleDoc(c, Merge(Outcomes(ids, report, json, backend.extractors))))
  }

  /** An eligible report's answer is a dict with exactly the four fields,
      in order, holding `True`, the category text or None, the description
      as given and the merged extractor data. */
  lemma EligibleDocFields(c: Classification, data: Entries)
    ensures EligibleDoc(c, data).Mapping? && EligibleDoc(c, data).mkind == PlainDict
    ensures DistinctKeys(EligibleDoc(c, data).entries)
    ensures KeySet(EligibleDoc(c, data).entries) ==
      {StrKey("cancer_excision_report"), StrKey("cancer_category"),
       StrKey("cancer_category_others_description"), StrKey("cancer_data")}
    ensures Lookup(EligibleDoc(c, data).entries, StrKey("cancer_excision_report")) == Some(Bool(true))
    ensures Lookup(EligibleDoc(c, data).entries, StrKey("cancer_category")) == Some(CategoryValue(c.cancerCategory))
    ensures Lookup(EligibleDoc(c, data).entries, StrKey("cancer_category_others_description")) ==
      Some(DescriptionValue(c.othersDescription))
    ensures Lookup(EligibleDoc(c, data).entries, StrKey("cancer_data")) == Some(Dict(data))
  {
    assert |"cancer_excision_report"| == 22 && |"cancer_category"| == 15;
    assert |"cancer_category_others_description"| == 34 && |"cancer_data"| == 11;
    FourFields(StrKey("cancer_excision_report"), StrKey("cancer_category"),
               StrKey("cancer_category_others_description"), StrKey("cancer_data"),
               Bool(true), CategoryValue(c.cancerCategory), DescriptionValue(c.othersDescription), Dict(data));
  }

  /** A report that is not eligible gets a dict with exactly three fields:
      `False`, no category and empty data. There is no description field. */
  lemma NotEligibleDocFields()
    ensures NotEligibleDoc().Mapping? && NotEligibleDoc().mkind == PlainDict
    ensures DistinctKeys(NotEligibleDoc().entries)
    ensures KeySet(NotEligibleDoc().entries) ==
      {StrKey("cancer_excision_report"), StrKey("cancer_category"), StrKey("cancer_data")}
    ensures Lookup(NotEligibleDoc().entries, StrKey("cancer_excision_report")) == Some(Bool(false))
    ensures Lookup(NotEligibleDoc().entries, StrKey("cancer_category")) == Some(Null)
    ensures Lookup(NotEligibleDoc().entries, StrKey("cancer_data")) == Some(Dict([]))
    ensures Lookup(NotEligibleDoc().entries, StrKey("cancer_category_others_description")) == None
  {
    assert |"cancer_excision_report"| == 22 && |"cancer_category"| == 15;
    assert |"cancer_category_others_description"| == 34 && |"cancer_data"| == 11;
    ThreeFields(StrKey("cancer_excision_report"), StrKey("cancer_category"), StrKey("cancer_data"),
                Bool(false), Null, Dict([]));
  }

  /** For an eligible report, `cancer_data` is a real dict holding exactly
      the keys the organ's extractors returned; with no category, or with
      "others", no extractor runs and it stays empty. */
  lemma ForwardCancerData(report: string, backend: Backend)
    requires backend.classify(Paragraphs(report)).Ok?
    requires backend.classify(Paragraphs(report)).value.cancerExcisionReport
    ensures var c := backend.classify(Paragraphs(report)).value;
      var json := JsonReport(Paragraphs(report), c.cancerCategory, backend);
      var os := Outcomes(ExtractorsFor(c.cancerCategory), report, json, backend.extractors);
      ForwardDoc(report, backend) == Ok(EligibleDoc(c, Merge(os))) &&
      DistinctKeys(Merge(os)) && KeySet(Merge(os)) == ExtractedKeys(os) &&
      (c.cancerCategory.None? || c.cancerCategory == Some(Others) ==> Merge(os) == [])
  {
    var c := backend.classify(Paragraphs(report)).value;
    var json := JsonReport(Paragraphs(report), c.cancerCategory, backend);
    MergeKeys(Outcomes(ExtractorsFor(c.cancerCategory), report, json, backend.extractors));
  }

  /** The events `forward` logs; timestamps and message wording are not kept. */
  datatype LogEvent =
    | ProcessingReport(fname: string)
    | Eligible
    | NotEligible
    | CategoryNotImplemented(description: Option<string>)
    | CategoryIs(category: Category)
    | ModelNotFound(id: string)
    | ProcessingModel(id: string)
    | ModelError(id: string, message: string)

  /** The events logged for one extractor name. */
  function ExtractorLog(id: string, o: Outcome): seq<LogEvent> {
    match o
    case Unresolved => [ModelNotFound(id)]
    case Failed(e) => [ProcessingModel(id), ModelError(id, e)]
    case Extracted(_) => [ProcessingModel(id)]
  }

  function FanOutLog(ids: seq<string>, os: seq<Outcome>): seq<LogEvent>
    requires |ids| == |os|
    decreases |ids|
  {
    if ids == [] then []
    else
      var n := |ids| - 1;
      FanOutLog(ids[..n], os[..n]) + ExtractorLog(ids[n], os[n])
  }

  lemma FanOutLogStep(ids: seq<string>, os: seq<Outcome>, i: nat)
    requires |ids| == |os| && i < |ids|
    ensures FanOutLog(ids[..i + 1], os[..i + 1]) == FanOutLog(ids[..i], os[..i]) + ExtractorLog(ids[i], os[i])
  {
    assert ids[..i + 1][..i] == ids[..i];
    assert os[..i + 1][..i] == os[..i];
  }

  /** The category line logged for an eligible report. */
  function CategoryLog(c: Classification): seq<LogEvent> {
    if c.cancerCategory == Some(Others) then [CategoryNotImplemented(c.othersDescription)]
    else if c.cancerCategory.Some? then [CategoryIs(c.cancerCategory.value)]
    else []
  }

  function ForwardLog(report: string, fname: string, backend: Backend): seq<LogEvent> {
    var paragraphs := Paragraphs(report);
    var header := [ProcessingReport(fname)];
    match backend.classify(paragraphs)
    case Err(_) => header
    case Ok(c) =>
      if !c.cancerExcisionReport then header + [NotEligible]
      else
        var json := JsonReport(paragraphs, c.cancerCategory, backend);
        var ids := ExtractorsFor(c.cancerCategory);
        header + [Eligible] + CategoryLog(c) + FanOutLog(ids, Outcomes(ids, report, json, backend.extractors))
  }

  // ---------------------------------------------------------------------
  // forward and run_cancer_pipeline
  // ---------------------------------------------------------------------

  /** `CancerPipeline.forward`: classify the paragraphs; for an eligible
      report render it as JSON, then run the organ's extractors one by one
      on the full report and merge what each returns into `cancer_data`. */
  method Forward(report: string, fname: string, backend: Backend) returns (r: Result<Value, string>, log: seq<LogEvent>)
    ensures r == ForwardDoc(report, backend)
    ensures log == ForwardLog(report, fname, backend)
  {
    log := [ProcessingReport(fname)];
    var paragraphs := Paragraphs(report);
    var context := backend.classify(paragraphs);
    if context.Err? {
      r := Err(context.error);
      return;
    }
    var c := context.value;
    if !c.cancerExcisionReport {
      log := log + [NotEligible];
      r := Ok(NotEligibleDoc());
      return;
    }
    log := log + [Eligible] + CategoryLog(c);
    var jsonReport := JsonReport(paragraphs, c.cancerCategory, backend);
    var ids := ExtractorsFor(c.cancerCategory);
    var cancerData, events := RunExtractors(ids, report, jsonReport, backend.extractors);
    log := log + events;
    r := Ok(EligibleDoc(c, cancerData));
  }

  /** The loop of `forward` over the organ's extractor names: look each
      name up, log it, call it and merge the normalised result into
      `cancer_data`, logging and skipping a name that is missing or fails. */
  method RunExtractors(ids: seq<string>, report: string, json: Value, extractors: map<string, Extractor>)
    returns (cancerData: Entries, log: seq<LogEvent>)
    ensures cancerData == Merge(Outcomes(ids, report, json, extractors))
    ensures log == FanOutLog(ids, Outcomes(ids, report, json, extractors))
  {
    ghost var os := Outcomes(ids, report, json, extractors);
    cancerData := [];
    log := [];
    var i := 0;
    while i < |ids|
      invariant 0 <= i <= |ids|
      invariant cancerData == Merge(os[..i])
      invariant log == FanOutLog(ids[..i], os[..i])
    {
      var id := ids[i];
      MergeStep(os, i);
      FanOutLogStep(ids, os, i);
      assert os[i] == RunExtractor(id, report, json, extractors);
      if id !in extractors {
        log := log + [ModelNotFound(id)];
      } else {
        log := log + [ProcessingModel(id)];
        var response := extractors[id](report, json);
        if response.Err? {
          log := log + [ModelError(id, response.error)];
        } else {
          var organData := PredictionDump.DumpPredictionPlain(response.value);
          cancerData := Update(cancerData, organData.entries);
        }
      }
      i := i + 1;
    }
    assert os[..i] == os;
    assert ids[..i] == ids;
  }

  /** `run_cancer_pipeline`: `forward` timed by `timeit`. The two clock
      readings are parameters; the elapsed time is their difference. An
      exception from `forward` passes through untimed. */
  method RunCancerPipeline(report: string, fname: string, backend: Backend, clockBefore: real, clockAfter: real)
    returns (r: Result<(Value, real), string>, log: seq<LogEvent>)
    ensures r.Ok? <==> ForwardDoc(report, backend).Ok?
    ensures r.Ok? ==> r.value == (ForwardDoc(report, backend).value, clockAfter - clockBefore)
    ensures r.Err? ==> r.error == ForwardDoc(report, backend).error
    ensures log == ForwardLog(report, fname, backend)
  {
    var response;
    response, log := Forward(report, fname, backend);
    if response.Err? {
      r := Err(response.error);
    } else {
      r := Ok((response.value, clockAfter - clockBefore));
    }
  }
}
