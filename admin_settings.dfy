/**
 * The master-data screen: the parser that turns the admin's free text into
 * a list of names, and the form whose submit handlers hand those names on
 * and clear their input.
 */
module AdminSettings {
  import opened Types
  import opened Text

  /** The characters of the pattern `/[\n,]+/`. */
  predicate IsSeparator(c: char) {
    c == '\n' || c == ','
  }

  predicate NoSeparator(w: string) {
    forall i :: 0 <= i < |w| ==> !IsSeparator(w[i])
  }

  /** A name as the parser can produce it: not empty, no separator, no surrounding whitespace. */
  predicate WellFormedName(w: string) {
    w != [] && NoSeparator(w) && Trim(w) == w
  }

  /**
   * The pieces of `s` between single separators: one more piece than there
   * are separators, adjacent separators giving an empty piece.
   */
  function SplitAtSeparators(s: string): (r: seq<string>)
    ensures |r| >= 1
    ensures forall i :: 0 <= i < |r| ==> NoSeparator(r[i])
    decreases |s|
  {
    if s == [] then [[]]
    else
      var rest := SplitAtSeparators(s[1..]);
      if IsSeparator(s[0]) then [[]] + rest
      else [[s[0]] + rest[0]] + rest[1..]
  }

  /** `list.filter(Boolean)` on strings: the non-empty ones, in order. */
  function NonEmpty(ps: seq<string>): (r: seq<string>)
    ensures |r| <= |ps|
    ensures forall w :: w in r <==> w in ps && w != []
  {
    if ps == [] then []
    else if ps[0] == [] then NonEmpty(ps[1..])
    else [ps[0]] + NonEmpty(ps[1..])
  }

  /**
   * `s.split(/[\n,]+/)`: a run of separators cuts once, so the empty pieces
   * between adjacent separators disappear; an empty first or last piece
   * (a separator at either end) stays.
   */
  function SplitAtSeparatorRuns(s: string): seq<string> {
    var p := SplitAtSeparators(s);
    if |p| == 1 then p else [p[0]] + NonEmpty(p[1..|p| - 1]) + [p[|p| - 1]]
  }

  /** `list.map(s => s.trim())`. */
  function TrimAll(ps: seq<string>): (r: seq<string>)
    ensures |r| == |ps|
    ensures forall i :: 0 <= i < |ps| ==> r[i] == Trim(ps[i])
  {
    if ps == [] then [] else [Trim(ps[0])] + TrimAll(ps[1..])
  }

  /** `text.split(/[\n,]+/).map(s => s.trim()).filter(Boolean)`. */
  function ParseNames(s: string): seq<string> {
    NonEmpty(TrimAll(SplitAtSeparatorRuns(s)))
  }

  /** Every parsed name is non-empty, free of separators and already trimmed. */
  lemma ParsedNamesWellFormed(s: string)
    ensures forall i :: 0 <= i < |ParseNames(s)| ==> WellFormedName(ParseNames(s)[i])
  {
    var pieces := SplitAtSeparatorRuns(s);
    var r := ParseNames(s);
    forall i | 0 <= i < |r| ensures WellFormedName(r[i]) {
      assert r[i] in TrimAll(pieces);
      var j :| 0 <= j < |pieces| && r[i] == TrimAll(pieces)[j];
      RunPiecesArePieces(s, pieces[j]);
      TrimmedPieceWellFormed(pieces[j]);
    }
  }

  lemma RunPiecesArePieces(s: string, w: string)
    requires w in SplitAtSeparatorRuns(s)
    ensures NoSeparator(w)
  {
    var p := SplitAtSeparators(s);
    if |p| > 1 {
      var mid := p[1..|p| - 1];
      if w in NonEmpty(mid) {
        var i :| 0 <= i < |mid| && mid[i] == w;
        assert w == p[i + 1];
      }
    }
  }

  lemma TrimmedPieceWellFormed(p: string)
    requires NoSeparator(p)
    ensures NoSeparator(Trim(p)) && Trim(Trim(p)) == Trim(p)
  {
    TrimIsSlice(p);
    TrimIdempotent(p);
    var r, k := Trim(p), |p| - |TrimStart(p)|;
    forall i | 0 <= i < |r| ensures !IsSeparator(r[i]) {
      assert r[i] == p[k + i];
    }
  }

  /** `words.join(sep)`. */
  function Join(words: seq<string>, sep: char): string {
    if words == [] then []
    else if |words| == 1 then words[0]
    else words[0] + [sep] + Join(words[1..], sep)
  }

  lemma {:induction false} NonEmptyAppend(a: seq<string>, b: seq<string>)
    ensures NonEmpty(a + b) == NonEmpty(a) + NonEmpty(b)
  {
    if a == [] {
      assert a + b == b;
    } else {
      assert (a + b)[0] == a[0];
      assert (a + b)[1..] == a[1..] + b;
      NonEmptyAppend(a[1..], b);
    }
  }

  lemma {:induction false} TrimAllAppend(a: seq<string>, b: seq<string>)
    ensures TrimAll(a + b) == TrimAll(a) + TrimAll(b)
  {
    if a == [] {
      assert a + b == b;
    } else {
      assert (a + b)[1..] == a[1..] + b;
      TrimAllAppend(a[1..], b);
    }
  }

  /** Dropping empty pieces before trimming changes nothing once empty results are dropped. */
  lemma {:induction false} NonEmptyBeforeTrim(ps: seq<string>)
    ensures NonEmpty(TrimAll(NonEmpty(ps))) == NonEmpty(TrimAll(ps))
  {
    if ps != [] {
      NonEmptyBeforeTrim(ps[1..]);
      assert TrimAll(ps)[1..] == TrimAll(ps[1..]);
      if ps[0] != [] {
        assert TrimAll([ps[0]] + NonEmpty(ps[1..]))[1..] == TrimAll(NonEmpty(ps[1..]));
      } else {
        assert Trim(ps[0]) == [];
      }
    }
  }

  /**
   * Splitting on runs of separators and splitting at every separator give
   * the same names: the extra pieces are empty and are dropped.
   */
  lemma ParseNamesBySingleSeparators(s: string)
    ensures ParseNames(s) == NonEmpty(TrimAll(SplitAtSeparators(s)))
  {
    var p := SplitAtSeparators(s);
    var n := |p|;
    if n > 1 {
      var mid := p[1..n - 1];
      assert p == [p[0]] + mid + [p[n - 1]];
      TrimAllAppend([p[0]] + NonEmpty(mid), [p[n - 1]]);
      TrimAllAppend([p[0]], NonEmpty(mid));
      TrimAllAppend([p[0]] + mid, [p[n - 1]]);
      TrimAllAppend([p[0]], mid);
      NonEmptyAppend(TrimAll([p[0]]) + TrimAll(NonEmpty(mid)), TrimAll([p[n - 1]]));
      NonEmptyAppend(TrimAll([p[0]]), TrimAll(NonEmpty(mid)));
      NonEmptyAppend(TrimAll([p[0]]) + TrimAll(mid), TrimAll([p[n - 1]]));
      NonEmptyAppend(TrimAll([p[0]]), TrimAll(mid));
      NonEmptyBeforeTrim(mid);
    }
  }

  /** A separator cuts the text in two: the pieces of the whole are those of the left part, then those of the right. */
  lemma {:induction false} SplitAtSeparator(s: string, c: char, t: string)
    requires IsSeparator(c)
    ensures SplitAtSeparators(s + [c] + t) == SplitAtSeparators(s) + SplitAtSeparators(t)
    decreases |s|
  {
    if s == [] {
      assert [c] + t == s + [c] + t;
      assert ([c] + t)[1..] == t;
    } else {
      assert (s + [c] + t)[0] == s[0];
      assert (s + [c] + t)[1..] == s[1..] + [c] + t;
      SplitAtSeparator(s[1..], c, t);
    }
  }

  /** Text with no separator is a single piece. */
  lemma {:induction false} SplitWithoutSeparator(w: string)
    requires NoSeparator(w)
    ensures SplitAtSeparators(w) == [w]
    decreases |w|
  {
    if w != [] {
      SplitWithoutSeparator(w[1..]);
      assert w == [w[0]] + w[1..];
    }
  }

  /**
   * Names survive a round trip through the text box: joining well-formed
   * names with a separator and parsing the text gives the same names back, in order.
   */
  lemma {:induction false} ParseJoinedNames(names: seq<string>, sep: char)
    requires IsSeparator(sep)
    requires forall i :: 0 <= i < |names| ==> WellFormedName(names[i])
    ensures ParseNames(Join(names, sep)) == names
  {
    ParseNamesBySingleSeparators(Join(names, sep));
    if names == [] {
    } else {
      SplitJoined(names, sep);
      KeepWellFormed(names);
    }
  }

  lemma {:induction false} SplitJoined(names: seq<string>, sep: char)
    requires IsSeparator(sep) && names != []
    requires forall i :: 0 <= i < |names| ==> NoSeparator(names[i])
    ensures SplitAtSeparators(Join(names, sep)) == names
  {
    if |names| == 1 {
      SplitWithoutSeparator(names[0]);
    } else {
      SplitAtSeparator(names[0], sep, Join(names[1..], sep));
      SplitWithoutSeparator(names[0]);
      SplitJoined(names[1..], sep);
    }
  }

  lemma {:induction false} KeepWellFormed(names: seq<string>)
    requires forall i :: 0 <= i < |names| ==> WellFormedName(names[i])
    ensures NonEmpty(TrimAll(names)) == names
  {
    if names != [] {
      KeepWellFormed(names[1..]);
      assert TrimAll(names)[1..] == TrimAll(names[1..]);
    }
  }

  /** Parsing respects order: text cut at a separator parses to the names of the left part followed by those of the right. */
  lemma ParseNamesConcat(s: string, c: char, t: string)
    requires IsSeparator(c)
    ensures ParseNames(s + [c] + t) == ParseNames(s) + ParseNames(t)
  {
    ParseNamesBySingleSeparators(s + [c] + t);
    ParseNamesBySingleSeparators(s);
    ParseNamesBySingleSeparators(t);
    SplitAtSeparator(s, c, t);
    TrimAllAppend(SplitAtSeparators(s), SplitAtSeparators(t));
    NonEmptyAppend(TrimAll(SplitAtSeparators(s)), TrimAll(SplitAtSeparators(t)));
  }

  /** Text that trims to nothing yields no names. */
  lemma BlankTextHasNoNames(s: string)
    requires Trim(s) == []
    ensures ParseNames(s) == []
  {
    TrimEmptyIffWhitespace(s);
    ParseNamesBySingleSeparators(s);
    BlankPieces(s);
    BlankPiecesVanish(SplitAtSeparators(s));
  }

  lemma {:induction false} BlankPieces(s: string)
    requires AllWhitespace(s)
    ensures forall i :: 0 <= i < |SplitAtSeparators(s)| ==> AllWhitespace(SplitAtSeparators(s)[i])
    decreases |s|
  {
    if s != [] {
      BlankPieces(s[1..]);
    }
  }

  lemma {:induction false} BlankPiecesVanish(ps: seq<string>)
    requires forall i :: 0 <= i < |ps| ==> AllWhitespace(ps[i])
    ensures NonEmpty(TrimAll(ps)) == []
  {
    if ps != [] {
      TrimEmptyIffWhitespace(ps[0]);
      BlankPiecesVanish(ps[1..]);
      assert TrimAll(ps)[1..] == TrimAll(ps[1..]);
    }
  }

  /**
   * The names a submit handler hands on: nothing unless `ready` (a unit, and
   * for keypoints a feeder, is selected) and the text is not blank, and
   * nothing when no name survives parsing.
   */
  function NamesToSubmit(ready: bool, text: string): Option<seq<string>> {
    if ready && Trim(text) != [] then
      var names := ParseNames(text);
      if |names| > 0 then Some(names) else None
    else None
  }

  /**
   * A submission happens exactly when the form is ready and at least one
   * name survives parsing; the blank-text test never refuses anything the
   * parse would accept.
   */
  lemma SubmitsIffNamesSurvive(ready: bool, text: string)
    ensures NamesToSubmit(ready, text).Some? <==> ready && ParseNames(text) != []
    ensures NamesToSubmit(ready, text).Some? ==> NamesToSubmit(ready, text).value == ParseNames(text)
  {
    if Trim(text) == [] {
      BlankTextHasNoNames(text);
    }
  }

  /** The call `onAddPetugas` / `onAddPenyulang` receives. */
  datatype AddNames = AddNames(ulp: string, names: seq<string>)

  /** The call `onAddKeypoint` receives. */
  datatype AddKeypoints = AddKeypoints(ulp: string, penyulang: string, names: seq<string>)

  /** The form state of the master-data screen. */
  class SettingsForm {
    var selectedUlp: string
    var newPetugas: string
    var newPenyulang: string
    var activePenyulang: string
    var newKeypoint: string

    constructor ()
      ensures selectedUlp == "" && newPetugas == "" && newPenyulang == ""
      ensures activePenyulang == "" && newKeypoint == ""
    {
      selectedUlp, newPetugas, newPenyulang := "", "", "";
      activePenyulang, newKeypoint := "", "";
    }

    /** Choosing a unit closes the keypoint panel of the previous unit's feeder. */
    method SelectUnit(ulp: string)
      modifies this
      ensures selectedUlp == ulp && activePenyulang == ""
      ensures newPetugas == old(newPetugas) && newPenyulang == old(newPenyulang)
      ensures newKeypoint == old(newKeypoint)
    {
      selectedUlp := ulp;
      activePenyulang := "";
    }

    /** `handleAddPetugasSubmit`: hands the parsed names on and clears the input only when some survive. */
    method SubmitPetugas() returns (call: Option<AddNames>)
      modifies this
      ensures call.Some? <==> old(selectedUlp) != "" && ParseNames(old(newPetugas)) != []
      ensures call.Some? ==> call.value == AddNames(old(selectedUlp), ParseNames(old(newPetugas)))
      ensures newPetugas == (if call.Some? then "" else old(newPetugas))
      ensures selectedUlp == old(selectedUlp) && newPenyulang == old(newPenyulang)
      ensures activePenyulang == old(activePenyulang) && newKeypoint == old(newKeypoint)
    {
      SubmitsIffNamesSurvive(selectedUlp != "", newPetugas);
      var names := NamesToSubmit(selectedUlp != "", newPetugas);
      if names.Some? {
        call := Some(AddNames(selectedUlp, names.value));
        newPetugas := "";
      } else {
        call := None;
      }
    }

    /** `handleAddPenyulangSubmit`: the same gate and parse on the feeder input. */
    method SubmitPenyulang() returns (call: Option<AddNames>)
      modifies this
      ensures call.Some? <==> old(selectedUlp) != "" && ParseNames(old(newPenyulang)) != []
      ensures call.Some? ==> call.value == AddNames(old(selectedUlp), ParseNames(old(newPenyulang)))
      ensures newPenyulang == (if call.Some? then "" else old(newPenyulang))
      ensures selectedUlp == old(selectedUlp) && newPetugas == old(newPetugas)
      ensures activePenyulang == old(activePenyulang) && newKeypoint == old(newKeypoint)
    {
      SubmitsIffNamesSurvive(selectedUlp != "", newPenyulang);
      var names := NamesToSubmit(selectedUlp != "", newPenyulang);
      if names.Some? {
        call := Some(AddNames(selectedUlp, names.value));
        newPenyulang := "";
      } else {
        call := None;
      }
    }

    /** `handleAddKeypointSubmit`: also needs an active feeder, which it passes on. */
    method SubmitKeypoints() returns (call: Option<AddKeypoints>)
      modifies this
      ensures call.Some? <==>
        old(selectedUlp) != "" && old(activePenyulang) != "" && ParseNames(old(newKeypoint)) != []
      ensures call.Some? ==>
        call.value == AddKeypoints(old(selectedUlp), old(activePenyulang), ParseNames(old(newKeypoint)))
      ensures newKeypoint == (if call.Some? then "" else old(newKeypoint))
      ensures selectedUlp == old(selectedUlp) && newPetugas == old(newPetugas)
      ensures newPenyulang == old(newPenyulang) && activePenyulang == old(activePenyulang)
    {
      var ready := selectedUlp != "" && activePenyulang != "";
      SubmitsIffNamesSurvive(ready, newKeypoint);
      var names := NamesToSubmit(ready, newKeypoint);
      if names.Some? {
        call := Some(AddKeypoints(selectedUlp, activePenyulang, names.value));
        newKeypoint := "";
      } else {
        call := None;
      }
    }
  }
}
