/** The few CMake language rules that the modelled scripts depend on: the truth value of a
    variable holding a list, and the list operations REMOVE_ITEM and REMOVE_DUPLICATES. */
module CMake {
  import opened Sequences

  function UpperChar(c: char): char {
    if 'a' <= c <= 'z' then ((c as int) - 32) as char else c
  }

  /** string(TOUPPER ...) on ASCII text. */
  function Upper(s: string): string {
    if s == "" then "" else [UpperChar(s[0])] + Upper(s[1..])
  }

  lemma {:induction false} UpperIsPointwise(s: string, i: nat)
    requires i < |s|
    ensures |Upper(s)| == |s| && Upper(s)[i] == UpperChar(s[i])
  {
    if i > 0 {
      UpperIsPointwise(s[1..], i - 1);
    } else if |s| > 1 {
      UpperIsPointwise(s[1..], 0);
    }
  }

  lemma UpperIs(s: string, t: string)
    requires |s| == |t| && forall i :: 0 <= i < |s| ==> UpperChar(s[i]) == t[i]
    ensures Upper(s) == t
  {
    forall i | 0 <= i < |s|
      ensures |Upper(s)| == |s| && Upper(s)[i] == t[i]
    {
      UpperIsPointwise(s, i);
    }
    if s != "" { UpperIsPointwise(s, 0); }
  }

  predicate HasSuffix(s: string, suffix: string) {
    |suffix| <= |s| && s[|s| - |suffix|..] == suffix
  }

  /** The names that `if(<variable>)` reads as false. */
  predicate IsOff(s: string) {
    s == "" || Upper(s) in {"0", "N", "NO", "OFF", "FALSE", "IGNORE"} || s == "NOTFOUND"
  }

  /** A name that no list can turn into a false value. */
  predicate IsPlain(name: string) {
    !IsOff(name) && !HasSuffix(name, "-NOTFOUND")
  }

  /** The truth value of a variable holding `list`.  A list is stored as its elements joined by
      semicolons, so a false constant is only seen when it stands alone, whereas the suffix
      -NOTFOUND is seen on whatever element comes last. */
  predicate Truthy(list: seq<string>) {
    && list != []
    && (|list| == 1 ==> !IsOff(list[0]))
    && !HasSuffix(list[|list| - 1], "-NOTFOUND")
  }

  /** `s` is the upper-case text `t` up to the case of its letters. */
  ghost predicate SameIgnoringCase(s: string, t: string) {
    |s| == |t| && forall i :: 0 <= i < |s| ==>
      s[i] == t[i] || ('A' <= t[i] <= 'Z' && s[i] as int == t[i] as int + ('a' as int - 'A' as int))
  }

  lemma UpperIgnoresCase(s: string, t: string)
    requires forall i :: 0 <= i < |t| ==> !('a' <= t[i] <= 'z')
    ensures Upper(s) == t <==> SameIgnoringCase(s, t)
  {
    forall i | 0 <= i < |s|
      ensures |Upper(s)| == |s| && Upper(s)[i] == UpperChar(s[i])
    {
      UpperIsPointwise(s, i);
    }
    if SameIgnoringCase(s, t) {
      UpperIs(s, t);
    }
  }

  /** A single value is false when it is empty, one of the false constants in any case, exactly
      NOTFOUND, or ends in -NOTFOUND. */
  lemma TruthOfOne(s: string)
    ensures Truthy([s]) <==>
      && s != "" && s != "NOTFOUND" && !(|s| >= 9 && s[|s| - 9..] == "-NOTFOUND")
      && !SameIgnoringCase(s, "0") && !SameIgnoringCase(s, "N") && !SameIgnoringCase(s, "NO")
      && !SameIgnoringCase(s, "OFF") && !SameIgnoringCase(s, "FALSE") && !SameIgnoringCase(s, "IGNORE")
    ensures IsPlain(s) <==> Truthy([s])
  {
    UpperIgnoresCase(s, "0");
    UpperIgnoresCase(s, "N");
    UpperIgnoresCase(s, "NO");
    UpperIgnoresCase(s, "OFF");
    UpperIgnoresCase(s, "FALSE");
    UpperIgnoresCase(s, "IGNORE");
  }

  /** Of any other list only the end of the last element counts. */
  lemma TruthOfMany(list: seq<string>)
    requires |list| != 1
    ensures Truthy(list) <==>
      list != [] && forall front :: list[|list| - 1] != front + "-NOTFOUND"
  {
    if list != [] {
      var last := list[|list| - 1];
      if |last| >= 9 {
        assert last == last[..|last| - 9] + last[|last| - 9..];
      }
      forall front | last == front + "-NOTFOUND"
        ensures HasSuffix(last, "-NOTFOUND")
      {
      }
    }
  }

  /** list(REMOVE_ITEM list items...): every occurrence of every item goes. */
  function RemoveItems(list: seq<string>, items: seq<string>): seq<string> {
    if list == [] then []
    else (if list[0] in items then [] else [list[0]]) + RemoveItems(list[1..], items)
  }

  /** list(REMOVE_DUPLICATES list): first occurrences stay, in order. */
  function RemoveDuplicates(list: seq<string>): seq<string> {
    if list == [] then []
    else
      var front := RemoveDuplicates(list[..|list| - 1]);
      if list[|list| - 1] in front then front else front + [list[|list| - 1]]
  }

  /** Where `x` occurs first. */
  ghost function FirstIndex(list: seq<string>, x: string): (i: nat)
    requires x in list
    ensures i < |list| && list[i] == x && x !in list[..i]
  {
    var n := |list| - 1;
    if x in list[..n] then
      var i := FirstIndex(list[..n], x);
      assert list[..n][..i] == list[..i];
      i
    else n
  }

  /** The elements of `part` occur first in `list` in the order in which they are in `part`. */
  ghost predicate InFirstOrder(part: seq<string>, list: seq<string>) {
    && (forall x :: x in part ==> x in list)
    && forall i, j :: 0 <= i < j < |part| ==> FirstIndex(list, part[i]) < FirstIndex(list, part[j])
  }

  lemma {:induction false} FirstIndexKept(list: seq<string>, x: string)
    requires list != [] && x in list[..|list| - 1]
    ensures x in list && FirstIndex(list, x) == FirstIndex(list[..|list| - 1], x)
  {
    assert list == list[..|list| - 1] + [list[|list| - 1]];
  }

  /** What is left is every element, once, in the order of the first occurrences. */
  lemma {:induction false} RemoveDuplicatesMeaning(list: seq<string>)
    ensures Distinct(RemoveDuplicates(list))
    ensures forall x :: x in RemoveDuplicates(list) <==> x in list
    ensures InFirstOrder(RemoveDuplicates(list), list)
  {
    if list == [] {
    } else {
      var n := |list| - 1;
      var front := list[..n];
      assert list == front + [list[n]];
      RemoveDuplicatesMeaning(front);
      var before, after := RemoveDuplicates(front), RemoveDuplicates(list);
      forall i, j | 0 <= i < j < |after|
        ensures FirstIndex(list, after[i]) < FirstIndex(list, after[j])
      {
        assert after[i] == before[i] && before[i] in before;
        FirstIndexKept(list, after[i]);
        if j < |before| {
          assert after[j] == before[j] && before[j] in before;
          FirstIndexKept(list, after[j]);
        } else {
          assert after[j] == list[n] && list[n] !in front;
        }
      }
    }
  }

  lemma {:induction false} FirstStaysFirst(list: seq<string>)
    requires list != []
    ensures RemoveDuplicates(list) != [] && RemoveDuplicates(list)[0] == list[0]
  {
    if |list| > 1 {
      FirstStaysFirst(list[..|list| - 1]);
    } else {
      assert list[..0] == [] && RemoveDuplicates(list[..0]) == [];
    }
  }

  lemma {:induction false} RemoveItemsConcat(a: seq<string>, b: seq<string>, items: seq<string>)
    ensures RemoveItems(a + b, items) == RemoveItems(a, items) + RemoveItems(b, items)
  {
    if a == [] {
      assert a + b == b;
    } else {
      assert (a + b)[1..] == a[1..] + b;
      RemoveItemsConcat(a[1..], b, items);
    }
  }

  lemma RemoveItemsOne(x: string, items: seq<string>)
    ensures RemoveItems([x], items) == if x in items then [] else [x]
  {
    assert [x][1..] == [];
  }

  lemma {:induction false} RemoveItemsAll(list: seq<string>, items: seq<string>)
    requires forall x :: x in list ==> x in items
    ensures RemoveItems(list, items) == []
  {
    if list != [] {
      assert forall x :: x in list[1..] ==> x in list;
      RemoveItemsAll(list[1..], items);
    }
  }

  lemma {:induction false} RemoveItemsNone(list: seq<string>, items: seq<string>)
    requires forall x :: x in list ==> x !in items
    ensures RemoveItems(list, items) == list
  {
    if list != [] {
      assert forall x :: x in list[1..] ==> x in list;
      RemoveItemsNone(list[1..], items);
    }
  }

  lemma {:induction false} RemoveItemsMember(list: seq<string>, items: seq<string>)
    ensures forall x :: x in RemoveItems(list, items) <==> x in list && x !in items
  {
    if list != [] {
      RemoveItemsMember(list[1..], items);
      assert list == [list[0]] + list[1..];
    }
  }

  /** No list of plain names is read as false unless it is empty. */
  lemma PlainListIsTruthy(list: seq<string>)
    requires list != [] && forall x :: x in list ==> IsPlain(x)
    ensures Truthy(list)
  {
    assert list[0] in list && list[|list| - 1] in list;
  }

  /** A list that consists of one false constant is read as false although it is not empty. */
  lemma SingleNameIsLost()
    ensures !Truthy(["NO"])
    ensures Truthy(["NO", "x"])
  {
    var name := "NO";
    assert name[1..] == "O" && name[1..][1..] == "";
    assert Upper(name[1..]) == "O" + Upper(name[1..][1..]);
    assert Upper(name) == "NO";
  }

  /** Appending plain names keeps a true list true. */
  lemma TruthyExtends(list: seq<string>, more: seq<string>)
    requires Truthy(list) && forall x :: x in more ==> IsPlain(x)
    ensures Truthy(list + more)
  {
    var all := list + more;
    if more == [] {
      assert all == list;
    } else {
      assert all[|all| - 1] == more[|more| - 1];
      assert more[|more| - 1] in more;
    }
  }
}
