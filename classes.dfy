/** The class-tag collection of a control (its `Classes`): an ordered list of
    style class names, kept free of duplicates, with `Add` and `Remove`. */
module Classes {

  /** No class name appears twice. */
  predicate NoDup(s: seq<string>)
  {
    forall i, j :: 0 <= i < j < |s| ==> s[i] != s[j]
  }

  /** `Classes.Add(name)`: appends `name` unless it is already present. */
  function Add(classes: seq<string>, name: string): (r: seq<string>)
    ensures name in r
    ensures forall t :: t in r <==> t in classes || t == name
    ensures name in classes ==> r == classes
    ensures name !in classes ==> r == classes + [name]
    ensures NoDup(classes) ==> NoDup(r)
  {
    if name in classes then classes else classes + [name]
  }

  /** Position of the first occurrence of `name`. */
  function IndexOf(classes: seq<string>, name: string): (i: nat)
    requires name in classes
    ensures i < |classes| && classes[i] == name
    ensures forall j :: 0 <= j < i ==> classes[j] != name
  {
    if classes[0] == name then 0 else 1 + IndexOf(classes[1..], name)
  }

  /** `Classes.Remove(name)`: deletes the first occurrence of `name`. The
      list shrinks by one exactly when the name was present, and an absent
      name leaves it as it was; the lemmas below say which element goes. */
  function Remove(classes: seq<string>, name: string): (r: seq<string>)
    ensures |r| == if name in classes then |classes| - 1 else |classes|
    ensures name !in classes ==> r == classes
  {
    if classes == [] then []
    else if classes[0] == name then classes[1..]
    else [classes[0]] + Remove(classes[1..], name)
  }

  /** `Remove` deletes exactly the first occurrence of `name` and keeps the
      order of everything else; an absent name leaves the list as it was. */
  lemma {:induction false} RemoveDeletesFirst(classes: seq<string>, name: string)
    ensures name !in classes ==> Remove(classes, name) == classes
    ensures name in classes ==>
      Remove(classes, name) == classes[..IndexOf(classes, name)] + classes[IndexOf(classes, name) + 1..]
  {
    if name in classes {
      var i := IndexOf(classes, name);
      if classes[0] == name {
        assert i == 0 && classes[..0] + classes[1..] == classes[1..];
      } else {
        assert name in classes[1..] by {
          assert classes[i] == classes[1..][i - 1];
        }
        RemoveDeletesFirst(classes[1..], name);
        RemoveLaterFirst(classes, name);
      }
    }
  }

  /** When the first occurrence of `name` lies in the tail, `Remove` keeps the
      head and deletes that occurrence from the tail. */
  lemma RemoveLaterFirst(classes: seq<string>, name: string)
    requires classes != [] && classes[0] != name && name in classes[1..]
    requires Remove(classes[1..], name) ==
      classes[1..][..IndexOf(classes[1..], name)] + classes[1..][IndexOf(classes[1..], name) + 1..]
    ensures Remove(classes, name) == classes[..IndexOf(classes, name)] + classes[IndexOf(classes, name) + 1..]
  {
    var j := IndexOf(classes[1..], name);
    assert IndexOf(classes, name) == j + 1;
    DeletionCons(classes, j);
  }

  /** Deleting position `j + 1` of a list is deleting position `j` of its tail. */
  lemma DeletionCons(c: seq<string>, j: nat)
    requires j + 1 < |c|
    ensures c[..j + 1] + c[j + 2..] == [c[0]] + (c[1..][..j] + c[1..][j + 1..])
  {
    assert c[..j + 1] == [c[0]] + c[1..][..j];
    assert c[j + 2..] == c[1..][j + 1..];
  }

  /** Exactly one occurrence of `name` leaves the bag of names. */
  lemma {:induction false} RemoveMultiset(classes: seq<string>, name: string)
    ensures multiset(Remove(classes, name)) == multiset(classes) - multiset{name}
  {
    if classes != [] {
      assert classes == [classes[0]] + classes[1..];
      if classes[0] != name {
        RemoveMultiset(classes[1..], name);
        assert Remove(classes, name) == [classes[0]] + Remove(classes[1..], name);
      }
    }
  }

  /** Every name other than `name` is present after `Remove` exactly when it was before. */
  lemma RemoveKeepsOthers(classes: seq<string>, name: string, t: string)
    requires t != name
    ensures t in Remove(classes, name) <==> t in classes
  {
    RemoveMultiset(classes, name);
    assert t in Remove(classes, name) <==> t in multiset(Remove(classes, name));
    assert t in classes <==> t in multiset(classes);
  }

  /** Element `k` of a list with position `i` deleted. */
  lemma DeletedAt(s: seq<string>, i: nat, k: nat)
    requires i < |s| && k < |s| - 1
    ensures |s[..i] + s[i + 1..]| == |s| - 1
    ensures (s[..i] + s[i + 1..])[k] == s[if k < i then k else k + 1]
  {
  }

  /** A duplicate-free list stays duplicate-free and no longer holds `name`. */
  lemma RemoveNoDup(classes: seq<string>, name: string)
    requires NoDup(classes)
    ensures NoDup(Remove(classes, name)) && name !in Remove(classes, name)
  {
    RemoveDeletesFirst(classes, name);
    if name in classes {
      var i := IndexOf(classes, name);
      var r := classes[..i] + classes[i + 1..];
      assert Remove(classes, name) == r;
      forall a, b | 0 <= a < b < |r|
        ensures r[a] != r[b]
      {
        DeletedAt(classes, i, a);
        DeletedAt(classes, i, b);
      }
      forall k | 0 <= k < |r|
        ensures r[k] != name
      {
        DeletedAt(classes, i, k);
      }
    }
  }

  /** Adding a name twice is the same as adding it once. */
  lemma AddIdempotent(classes: seq<string>, name: string)
    ensures Add(Add(classes, name), name) == Add(classes, name)
  {
  }

  /** Removing a name twice from a duplicate-free list is the same as removing it once. */
  lemma RemoveIdempotent(classes: seq<string>, name: string)
    requires NoDup(classes)
    ensures Remove(Remove(classes, name), name) == Remove(classes, name)
  {
    RemoveNoDup(classes, name);
    RemoveDeletesFirst(Remove(classes, name), name);
  }

  /** Adding a name that was absent and then removing it restores the list exactly. */
  lemma {:induction false} AddThenRemove(classes: seq<string>, name: string)
    requires name !in classes
    ensures Remove(Add(classes, name), name) == classes
  {
    if classes != [] {
      AddThenRemove(classes[1..], name);
      assert (classes + [name])[1..] == classes[1..] + [name];
    }
  }

  /** Removing a name that was present and then adding it back gives the same
      names, with that name moved to the end. */
  lemma RemoveThenAdd(classes: seq<string>, name: string)
    requires NoDup(classes) && name in classes
    ensures forall t :: t in Add(Remove(classes, name), name) <==> t in classes
    ensures |Add(Remove(classes, name), name)| == |classes|
    ensures Add(Remove(classes, name), name)[|classes| - 1] == name
  {
    RemoveNoDup(classes, name);
    RemoveDeletesFirst(classes, name);
    forall t | t != name
      ensures t in Remove(classes, name) <==> t in classes
    {
      RemoveKeepsOthers(classes, name, t);
    }
  }
}
