// The two pieces of pure view logic on the report page: the info-popup
// toggle and the file name under which a celebrity's photo is looked up.

module ReportView {
  import opened Wrappers
  import opened Strings

  // ---------------------------------------------------------------------
  // Info popups. The page keeps the id of the one open popup, or nothing.
  // ---------------------------------------------------------------------

  /** The popup state after the info button `id` is pressed in state `prev`. */
  function ShowInfo(prev: Option<string>, id: string): (r: Option<string>)
    ensures r == None <==> prev == Some(id)
    ensures r != None ==> r == Some(id)
  {
    if prev == Some(id) then None else Some(id)
  }

  /** Whether the popup `id` is drawn in state `st`. */
  predicate PopupVisible(st: Option<string>, id: string) {
    st == Some(id)
  }

  /** At most one popup is ever drawn, and after a press either the pressed
      popup or none at all. */
  lemma ShowInfoShowsAtMostPressed(prev: Option<string>, id: string, other: string)
    ensures PopupVisible(ShowInfo(prev, id), other) ==> other == id
    ensures PopupVisible(ShowInfo(prev, id), id) <==> !PopupVisible(prev, id)
  {
  }

  /** Pressing the same button twice restores the earlier state exactly when
      no popup or that very popup was open; if another popup was open, the
      first press switches to `id` and the second closes everything. */
  lemma ShowInfoTwice(prev: Option<string>, id: string)
    ensures ShowInfo(ShowInfo(prev, id), id) == prev <==> (prev == None || prev == Some(id))
    ensures prev.Some? && prev.value != id ==> ShowInfo(ShowInfo(prev, id), id) == None
  {
  }

  /** Pressing another button while a popup is open switches to it. */
  lemma ShowInfoSwitches(prev: Option<string>, id: string, other: string)
    requires prev == Some(other) && other != id
    ensures ShowInfo(prev, id) == Some(id)
  {
  }

  // ---------------------------------------------------------------------
  // Celebrity photo names: lower-case the name, then replace every maximal
  // run of white space by a single '-'.
  // ---------------------------------------------------------------------

  predicate IsUpper(c: char) {
    'A' <= c <= 'Z'
  }

  function ToLower(c: char): (r: char)
    ensures !IsUpper(r)
    ensures IsSpace(r) <==> IsSpace(c)
    ensures !IsUpper(c) ==> r == c
  {
    if IsUpper(c) then (c as int + 32) as char else c
  }

  predicate NoUpper(s: string) {
    forall i :: 0 <= i < |s| ==> !IsUpper(s[i])
  }

  predicate NoSpace(s: string) {
    forall i :: 0 <= i < |s| ==> !IsSpace(s[i])
  }

  /** Lower-casing, character by character. */
  function LowerCase(s: string): (r: string)
    ensures |r| == |s|
    ensures forall i :: 0 <= i < |s| ==> r[i] == ToLower(s[i])
  {
    if s == [] then [] else [ToLower(s[0])] + LowerCase(s[1..])
  }

  /** Replaces each maximal run of white space in `s` by one '-'. */
  function CollapseSpaces(s: string): (r: string)
    ensures |r| <= |s|
    decreases |s|
  {
    if s == [] then []
    else if IsSpace(s[0]) then "-" + CollapseSpaces(TrimStart(s[1..]))
    else [s[0]] + CollapseSpaces(s[1..])
  }

  /** The slug used for `/celebrities/<slug>.jpg`. */
  function CelebritySlug(name: string): (r: string)
    ensures |r| <= |name|
    ensures NoSpace(r) && NoUpper(r)
    ensures r == [] <==> name == []
  {
    CollapseEmpty(LowerCase(name));
    CollapseKeepsNoUpper(LowerCase(name));
    CollapseHasNoSpace(LowerCase(name));
    CollapseSpaces(LowerCase(name))
  }

  function CelebrityImagePath(name: string): (r: string)
    ensures StartsWith(r, "/celebrities/")
  {
    "/celebrities/" + CelebritySlug(name) + ".jpg"
  }

  /** Collapsing only ever adds '-', so it brings in no upper-case letter. */
  lemma {:induction false} CollapseKeepsNoUpper(s: string)
    requires NoUpper(s)
    ensures NoUpper(CollapseSpaces(s))
    decreases |s|
  {
    if s != [] {
      if IsSpace(s[0]) {
        var t := s[1..];
        TrimStartSplits(t);
        var u := TrimStart(t);
        assert forall i :: 0 <= i < |u| ==> u[i] == t[|t| - |u| + i];
        CollapseKeepsNoUpper(u);
      } else {
        CollapseKeepsNoUpper(s[1..]);
      }
    }
  }

  /** No white space survives collapsing. */
  lemma {:induction false} CollapseHasNoSpace(s: string)
    ensures NoSpace(CollapseSpaces(s))
    decreases |s|
  {
    if s != [] {
      if IsSpace(s[0]) {
        CollapseHasNoSpace(TrimStart(s[1..]));
      } else {
        CollapseHasNoSpace(s[1..]);
      }
    }
  }

  lemma CollapseEmpty(s: string)
    ensures CollapseSpaces(s) == [] <==> s == []
  {
  }

  /** A text without white space is left as it is. */
  lemma {:induction false} CollapseNoSpace(s: string)
    requires NoSpace(s)
    ensures CollapseSpaces(s) == s
  {
    if s != [] {
      assert !IsSpace(s[0]);
      CollapseNoSpace(s[1..]);
    }
  }

  lemma LowerCaseNoUpper(s: string)
    requires NoUpper(s)
    ensures LowerCase(s) == s
  {
  }

  lemma LowerCaseConcat(a: string, b: string)
    ensures LowerCase(a + b) == LowerCase(a) + LowerCase(b)
  {
    var l, r := LowerCase(a + b), LowerCase(a) + LowerCase(b);
    assert forall i :: 0 <= i < |l| ==> l[i] == r[i];
  }

  /** Collapsing distributes over a cut just after a non-space character,
      since no run of white space straddles it. */
  lemma {:induction false} CollapseConcat(a: string, b: string)
    requires a == [] || !IsSpace(a[|a| - 1])
    ensures CollapseSpaces(a + b) == CollapseSpaces(a) + CollapseSpaces(b)
    decreases |a|
  {
    if a == [] {
      assert a + b == b;
    } else if IsSpace(a[0]) {
      var t := a[1..];
      assert (a + b)[1..] == t + b;
      assert !IsSpace(t[|t| - 1]);
      TrimStartConcat(t, b);
      TrimStartKeepsLast(t);
      var u := TrimStart(t);
      CollapseConcat(u, b);
    } else {
      assert (a + b)[1..] == a[1..] + b;
      CollapseConcat(a[1..], b);
    }
  }

  /** A run of white space in front of a word becomes a single '-'. */
  lemma CollapseSpaceRun(w: string, b: string)
    requires w != [] && AllSpace(w)
    requires b == [] || !IsSpace(b[0])
    ensures CollapseSpaces(w + b) == "-" + CollapseSpaces(b)
  {
    var wb := w + b;
    assert wb[0] == w[0] && wb[1..] == w[1..] + b;
    TrimStartSpacesThen(w[1..], b);
  }

  /** Two words separated by any non-empty run of white space become the two
      collapsed words joined by '-'. */
  lemma CollapseWords(a: string, w: string, b: string)
    requires a == [] || !IsSpace(a[|a| - 1])
    requires w != [] && AllSpace(w)
    requires b == [] || !IsSpace(b[0])
    ensures CollapseSpaces(a + w + b) == CollapseSpaces(a) + "-" + CollapseSpaces(b)
  {
    assert a + w + b == a + (w + b);
    CollapseConcat(a, w + b);
    CollapseSpaceRun(w, b);
  }

  lemma SlugWords(a: string, w: string, b: string)
    requires a == [] || !IsSpace(a[|a| - 1])
    requires w != [] && AllSpace(w)
    requires b == [] || !IsSpace(b[0])
    ensures CelebritySlug(a + w + b) == CelebritySlug(a) + "-" + CelebritySlug(b)
  {
    LowerCaseConcat(a + w, b);
    LowerCaseConcat(a, w);
    var la, lw, lb := LowerCase(a), LowerCase(w), LowerCase(b);
    assert forall i :: 0 <= i < |lw| ==> lw[i] == ToLower(w[i]);
    CollapseWords(la, lw, lb);
  }

  /** Slugging a slug changes nothing. */
  lemma SlugIdempotent(name: string)
    ensures CelebritySlug(CelebritySlug(name)) == CelebritySlug(name)
  {
    var r := CelebritySlug(name);
    LowerCaseNoUpper(r);
    CollapseNoSpace(r);
  }

  /** A name without white space is only lower-cased. */
  lemma SlugOfOneWord(name: string)
    requires NoSpace(name)
    ensures CelebritySlug(name) == LowerCase(name)
  {
    CollapseNoSpace(LowerCase(name));
  }
}
