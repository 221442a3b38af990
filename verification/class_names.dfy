/**
 The `cn` helper of the chat view: `classes.filter(Boolean).join(" ")`.
 For strings, `Boolean` is false exactly on the empty string, so `cn` keeps
 the non-empty class names in order and puts one space between neighbours.
 `NonEmptyAppend` and `CnAppend` pin down the order and the single-space
 separation for every input. Where no name holds a space, `Split`
 (JavaScript's `split(" ")`) also recovers the kept names from the joined
 string.
 */
module ClassNames {

  /** `classes.filter(Boolean)`: the non-empty names, in their original order. */
  function NonEmpty(classes: seq<string>): (kept: seq<string>)
    ensures |kept| <= |classes|
    ensures forall c :: c in kept ==> c in classes && c != ""
    ensures forall c :: c in classes && c != "" ==> c in kept
  {
    if classes == [] then []
    else (if classes[0] == "" then [] else [classes[0]]) + NonEmpty(classes[1..])
  }

  /** The total number of characters of the names. */
  function TotalLength(names: seq<string>): nat
  {
    if names == [] then 0 else |names[0]| + TotalLength(names[1..])
  }

  /** `names.join(" ")`: the empty array joins to the empty string. Otherwise
      the join starts with the first name and holds every character of every
      name plus one separator between each pair of neighbours. */
  function JoinWithSpace(names: seq<string>): (r: string)
    ensures names == [] ==> r == ""
    ensures names != [] ==> names[0] <= r && |r| == TotalLength(names) + |names| - 1
  {
    if names == [] then ""
    else if |names| == 1 then names[0]
    else names[0] + " " + JoinWithSpace(names[1..])
  }

  /** The class-name combiner of the chat view. It yields the empty string
      exactly when every argument is empty, and every character it yields
      comes from an argument or is a separating space. */
  function Cn(classes: seq<string>): (r: string)
    ensures r == "" <==> forall i :: 0 <= i < |classes| ==> classes[i] == ""
    ensures forall ch :: ch in r ==> ch == ' ' || exists c :: c in classes && ch in c
  {
    var kept := NonEmpty(classes);
    JoinNonEmpty(kept);
    JoinChars(kept);
    NonEmptyIsEmpty(classes);
    JoinWithSpace(kept)
  }

  /** Filtering a concatenation filters each part: the kept names keep
      their order and their multiplicity. */
  lemma {:induction false} NonEmptyAppend(a: seq<string>, b: seq<string>)
    ensures NonEmpty(a + b) == NonEmpty(a) + NonEmpty(b)
    decreases |a|
  {
    if a == [] {
      assert a + b == b;
    } else {
      assert (a + b)[0] == a[0];
      assert (a + b)[1..] == a[1..] + b;
      NonEmptyAppend(a[1..], b);
    }
  }

  /** Appending one more name to a join adds one space and that name, unless
      the list was empty. */
  lemma {:induction false} JoinSnoc(names: seq<string>, w: string)
    ensures JoinWithSpace(names + [w]) ==
      if names == [] then w else JoinWithSpace(names) + " " + w
    decreases |names|
  {
    if names == [] {
      assert names + [w] == [w];
    } else {
      assert (names + [w])[0] == names[0];
      assert (names + [w])[1..] == names[1..] + [w];
      JoinSnoc(names[1..], w);
    }
  }

  /** `cn` with one more argument: an empty argument changes nothing, and a
      non-empty one is appended after a single space, or stands alone when
      nothing came before it. This holds whatever characters the arguments
      contain. */
  lemma CnAppend(classes: seq<string>, c: string)
    ensures Cn(classes + [c]) ==
      if c == "" then Cn(classes)
      else if Cn(classes) == "" then c
      else Cn(classes) + " " + c
  {
    var kept := NonEmpty(classes);
    NonEmptyAppend(classes, [c]);
    assert [c][1..] == [];
    if c == "" {
      assert NonEmpty([c]) == [];
      assert NonEmpty(classes + [c]) == kept + [] == kept;
    } else {
      assert NonEmpty(classes + [c]) == kept + [c];
      JoinNonEmpty(kept);
      JoinSnoc(kept, c);
    }
  }

  /** Filtering leaves nothing exactly when every name is empty. */
  lemma NonEmptyIsEmpty(classes: seq<string>)
    ensures NonEmpty(classes) == [] <==> forall i :: 0 <= i < |classes| ==> classes[i] == ""
  {
    if NonEmpty(classes) == [] {
      forall i | 0 <= i < |classes| ensures classes[i] == "" {
        assert classes[i] in classes;
      }
    }
  }

  /** Joining at least one non-empty name gives a non-empty string, and
      joining nothing gives the empty string. */
  lemma JoinNonEmpty(names: seq<string>)
    requires forall n :: n in names ==> n != ""
    ensures JoinWithSpace(names) == "" <==> names == []
  {
    if |names| > 1 {
      assert names[0] in names;
    } else if |names| == 1 {
      assert names[0] in names;
    }
  }

  /** Every character of a join is a space or a character of some name. */
  lemma {:induction false} JoinChars(names: seq<string>)
    ensures forall ch :: ch in JoinWithSpace(names) ==> ch == ' ' || exists n :: n in names && ch in n
  {
    if |names| > 1 {
      JoinChars(names[1..]);
      forall ch | ch in JoinWithSpace(names)
        ensures ch == ' ' || exists n :: n in names && ch in n
      {
        var rest := JoinWithSpace(names[1..]);
        assert JoinWithSpace(names) == names[0] + " " + rest;
        if ch in names[0] {
          assert names[0] in names;
        } else if ch != ' ' {
          assert ch in rest;
          var n :| n in names[1..] && ch in n;
          assert n in names;
        }
      }
    } else if |names| == 1 {
      assert names[0] in names;
    }
  }

  /** The index of the first space of `s` at or after `from`, or `|s|`. */
  function IndexOfSpace(s: string, from: nat): (k: nat)
    requires from <= |s|
    ensures from <= k <= |s|
    ensures forall i :: from <= i < k ==> s[i] != ' '
    ensures k < |s| ==> s[k] == ' '
    decreases |s| - from
  {
    if from == |s| || s[from] == ' ' then from else IndexOfSpace(s, from + 1)
  }

  /** `s.split(" ")`: the pieces between single spaces, so that a string
      without spaces is one piece and the empty string is the one piece "". */
  function Split(s: string): (pieces: seq<string>)
    ensures |pieces| >= 1
    decreases |s|
  {
    var k := IndexOfSpace(s, 0);
    if k == |s| then [s] else [s[..k]] + Split(s[k + 1..])
  }

  /** In a space-free word followed by a space, the first space is the one
      right after the word. */
  lemma FirstSpaceAfterWord(w: string, rest: string)
    requires ' ' !in w
    ensures IndexOfSpace(w + " " + rest, 0) == |w|
  {
    var s := w + " " + rest;
    assert s[|w|] == ' ';
  }

  /** Splitting a join of space-free names gives back the names. */
  lemma {:induction false} SplitJoin(names: seq<string>)
    requires names != []
    requires forall n :: n in names ==> ' ' !in n
    ensures Split(JoinWithSpace(names)) == names
  {
    var w := names[0];
    assert w in names;
    if |names| == 1 {
      assert IndexOfSpace(w, 0) == |w|;
    } else {
      var rest := JoinWithSpace(names[1..]);
      var s := w + " " + rest;
      assert JoinWithSpace(names) == s;
      FirstSpaceAfterWord(w, rest);
      assert s[..|w|] == w;
      assert s[|w| + 1..] == rest;
      forall n | n in names[1..] ensures ' ' !in n {
        assert n in names;
      }
      SplitJoin(names[1..]);
      assert Split(s) == [w] + names[1..];
    }
  }

  /** `cn` round trip: when no argument holds a space and at least one is
      non-empty, splitting the combined class string on single spaces gives
      back exactly the non-empty arguments, in order. */
  lemma {:induction false} CnSplitRoundTrip(classes: seq<string>)
    requires forall c :: c in classes ==> ' ' !in c
    requires exists i :: 0 <= i < |classes| && classes[i] != ""
    ensures Split(Cn(classes)) == NonEmpty(classes)
  {
    var kept := NonEmpty(classes);
    var i :| 0 <= i < |classes| && classes[i] != "";
    assert classes[i] in kept;
    forall n | n in kept ensures ' ' !in n {
      assert n in classes;
    }
    SplitJoin(kept);
  }
}
