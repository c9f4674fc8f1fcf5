/**
 * The amenity checkbox group: a box is checked when the value lists its option,
 * and toggling copies the value into an insertion-ordered Set, adds or deletes
 * the option, and hands back the Set as a list.
 */
module AmenityCheckboxGroup {
  import opened Seqs

  /** No entry occurs twice. */
  ghost predicate NoDup(s: seq<string>) { forall x :: multiset(s)[x] <= 1 }

  /** The position of the first occurrence of x in s. */
  function FirstIndex(s: seq<string>, x: string): (k: nat)
    requires x in s
    ensures k < |s| && s[k] == x && x !in s[..k]
  {
    if s[0] == x then 0
    else
      var k := FirstIndex(s[1..], x);
      assert s[..k + 1] == [s[0]] + s[1..][..k];
      k + 1
  }

  /** Only the first occurrence has no earlier copy. */
  lemma FirstIndexUnique(s: seq<string>, x: string, k: nat)
    requires k < |s| && s[k] == x && x !in s[..k]
    ensures FirstIndex(s, x) == k
  {
  }

  /** `new Set(value)` read back in insertion order: first occurrences, in order. */
  function Dedup(s: seq<string>): (r: seq<string>)
    ensures forall x :: x in r <==> x in s
    ensures NoDup(r)
  {
    if |s| == 0 then []
    else
      var d := Dedup(s[..|s| - 1]);
      assert forall x :: x in s <==> x in s[..|s| - 1] || x == s[|s| - 1] by {
        assert s == s[..|s| - 1] + [s[|s| - 1]];
      }
      if s[|s| - 1] in d then d
      else
        assert multiset(d)[s[|s| - 1]] == 0;
        d + [s[|s| - 1]]
  }

  /** The Set lists its entries in the order of their first occurrence in the input, duplicates or not. */
  lemma {:induction false} DedupKeepsFirstOrder(s: seq<string>)
    ensures forall i, j :: 0 <= i < j < |Dedup(s)| ==> FirstIndex(s, Dedup(s)[i]) < FirstIndex(s, Dedup(s)[j])
  {
    if |s| > 0 {
      var p := s[..|s| - 1];
      var last := s[|s| - 1];
      var d := Dedup(p);
      DedupKeepsFirstOrder(p);
      assert s == p + [last];
      forall y | y in p ensures FirstIndex(s, y) == FirstIndex(p, y) {
        var k := FirstIndex(p, y);
        assert s[..k] == p[..k];
        FirstIndexUnique(s, y, k);
      }
      if last !in d {
        FirstIndexUnique(s, last, |s| - 1);
        var r := d + [last];
        assert Dedup(s) == r;
        forall i, j | 0 <= i < j < |r| ensures FirstIndex(s, r[i]) < FirstIndex(s, r[j]) {
          assert r[i] == d[i] && d[i] in p;
          if j < |d| {
            assert r[j] == d[j] && d[j] in p;
          }
        }
      } else {
        assert Dedup(s) == d;
        forall i | 0 <= i < |d| ensures d[i] in p {
        }
      }
    }
  }

  function OtherThan(opt: string): string -> bool { (x: string) => x != opt }

  /** `set.delete(opt)`: the entries other than opt, in order. */
  function Without(s: seq<string>, opt: string): (r: seq<string>)
    ensures forall x :: x in r <==> x in s && x != opt
    ensures NoDup(s) ==> NoDup(r)
  {
    var r := Filter(s, OtherThan(opt));
    forall x ensures multiset(r)[x] <= multiset(s)[x] {
      FilterCount(s, OtherThan(opt), x);
    }
    r
  }

  /** `value.includes(opt)`: the checkbox for opt is shown checked. */
  predicate Checked(value: seq<string>, opt: string) { opt in value }

  /** What toggle hands to onChange. */
  function ToggleSpec(value: seq<string>, opt: string, checked: bool): seq<string> {
    var d := Dedup(value);
    if checked then (if opt in d then d else d + [opt]) else Without(d, opt)
  }

  /** toggle: build the Set from value one entry at a time, then add or delete the option. */
  method Toggle(value: seq<string>, opt: string, checked: bool) returns (next: seq<string>)
    ensures next == ToggleSpec(value, opt, checked)
  {
    var chosen: seq<string> := [];
    var i := 0;
    while i < |value|
      invariant 0 <= i <= |value|
      invariant chosen == Dedup(value[..i])
    {
      assert value[..i + 1][..i] == value[..i];
      if value[i] !in chosen {
        chosen := chosen + [value[i]];
      }
      i := i + 1;
    }
    assert value[..|value|] == value;
    if checked {
      if opt !in chosen {
        chosen := chosen + [opt];
      }
    } else {
      chosen := Without(chosen, opt);
    }
    next := chosen;
  }

  /** After a toggle the option's box shows exactly the requested state. */
  lemma ToggleSetsChecked(value: seq<string>, opt: string, checked: bool)
    ensures Checked(ToggleSpec(value, opt, checked), opt) == checked
  {
  }

  /** A toggle keeps every other entry of value and adds nothing but the option. */
  lemma ToggleKeepsOthers(value: seq<string>, opt: string, checked: bool, x: string)
    requires x != opt
    ensures x in ToggleSpec(value, opt, checked) <==> x in value
  {
  }

  /** A toggle never yields a duplicate. */
  lemma ToggleNoDup(value: seq<string>, opt: string, checked: bool)
    ensures NoDup(ToggleSpec(value, opt, checked))
  {
    var d := Dedup(value);
    if checked && opt !in d {
      assert multiset(d)[opt] == 0;
    }
  }

  /** A list without duplicates comes back from the Set unchanged, order included. */
  lemma {:induction false} DedupOfDistinct(s: seq<string>)
    requires NoDup(s)
    ensures Dedup(s) == s
  {
    if |s| > 0 {
      var init := s[..|s| - 1];
      assert s == init + [s[|s| - 1]];
      forall x ensures multiset(init)[x] <= 1 {
        assert multiset(s)[x] == multiset(init)[x] + multiset([s[|s| - 1]])[x];
      }
      DedupOfDistinct(init);
      assert multiset(s)[s[|s| - 1]] == multiset(init)[s[|s| - 1]] + 1;
    }
  }

  /** Checking a new option on a list without duplicates appends it at the end. */
  lemma AddGoesLast(value: seq<string>, opt: string)
    requires NoDup(value) && opt !in value
    ensures ToggleSpec(value, opt, true) == value + [opt]
  {
    DedupOfDistinct(value);
  }

  /** Unchecking keeps the other entries of a list without duplicates, in their order. */
  lemma RemoveKeepsOrder(value: seq<string>, opt: string)
    requires NoDup(value)
    ensures ToggleSpec(value, opt, false) == Filter(value, OtherThan(opt))
  {
    DedupOfDistinct(value);
  }

  /** Repeating a toggle changes nothing further. */
  lemma ToggleIdempotent(value: seq<string>, opt: string, checked: bool)
    ensures ToggleSpec(ToggleSpec(value, opt, checked), opt, checked) == ToggleSpec(value, opt, checked)
  {
    var once := ToggleSpec(value, opt, checked);
    ToggleNoDup(value, opt, checked);
    DedupOfDistinct(once);
    if !checked {
      FilterKeepsAll(once, OtherThan(opt));
    }
  }
}
