/** Items sources as an `ItemsControl` sees them at the moment it looks at
    one, and the bag of sources whose `PropertyChanged` event currently holds
    the control's handler. */
module Sources {

  datatype Option<T> = None | Some(value: T)

  type SourceId = nat

  /** One element of an enumerable: a null reference or some object. */
  datatype Element = NullElement | Object(ref: nat)

  /** A snapshot of a non-null items source: its identity, the elements it
      enumerates right now, whether it implements `INotifyPropertyChanged`,
      and whether it implements `IList` (and so has a `Count`). */
  datatype Source = Source(id: SourceId, elements: seq<Element>, notifies: bool, isList: bool)

  /** `OfType<object>().Any()`: some enumerated element is not null. */
  function AnyObject(elements: seq<Element>): (r: bool)
    ensures r <==> exists i :: 0 <= i < |elements| && elements[i].Object?
  {
    if elements == [] then false
    else if elements[0].Object? then true
    else
      assert forall i :: 1 <= i < |elements| ==> elements[i] == elements[1..][i - 1];
      AnyObject(elements[1..])
  }

  /** The test of `ItemsChanged`: the new value of `Items` is null or yields
      no object, that is, every element it enumerates is a null reference. */
  function IsEmptyItems(items: Option<Source>): (r: bool)
    ensures r <==> items.None? || forall i :: 0 <= i < |items.value.elements| ==> items.value.elements[i].NullElement?
  {
    items.None? || !AnyObject(items.value.elements)
  }

  /** The test of `ItemsPropertyChanged`: the sender's `IList.Count` is zero.
      A zero count means the list enumerates nothing, so it also passes the
      emptiness test of `ItemsChanged`. */
  function IsZeroCount(sender: Source): (r: bool)
    requires sender.isList
    ensures r <==> sender.elements == []
    ensures r ==> IsEmptyItems(Some(sender))
  {
    |sender.elements| == 0
  }

  /** Whether `items as INotifyPropertyChanged` is non-null, so that the
      handler is hooked into (or unhooked from) its `PropertyChanged` event. */
  predicate Notifies(items: Option<Source>)
  {
    items.Some? && items.value.notifies
  }

  /** `PropertyChanged -= handler` on the source, when it notifies: one
      occurrence of the handler on that source goes, if there is one. */
  function Detach(listeners: multiset<SourceId>, items: Option<Source>): (r: multiset<SourceId>)
    ensures r <= listeners
    ensures |r| == if Notifies(items) && items.value.id in listeners then |listeners| - 1 else |listeners|
    ensures forall id :: (!Notifies(items) || id != items.value.id) ==> r[id] == listeners[id]
  {
    if Notifies(items) then listeners - multiset{items.value.id} else listeners
  }

  /** `PropertyChanged += handler` on the source, when it notifies. */
  function Attach(listeners: multiset<SourceId>, items: Option<Source>): (r: multiset<SourceId>)
    ensures listeners <= r
    ensures |r| == if Notifies(items) then |listeners| + 1 else |listeners|
    ensures Notifies(items) ==> items.value.id in r
    ensures forall id :: (!Notifies(items) || id != items.value.id) ==> r[id] == listeners[id]
  {
    if Notifies(items) then listeners + multiset{items.value.id} else listeners
  }

  /** The listener bag that matches an `Items` value: the handler once on it,
      if it notifies, and nowhere else. */
  function ListeningTo(items: Option<Source>): multiset<SourceId>
  {
    if Notifies(items) then multiset{items.value.id} else multiset{}
  }

  /** Swapping the handler from `prev` to `next`, starting from a bag that
      listens to `prev` alone, leaves a bag that listens to `next` alone: the
      previous source is released whatever the next one is. */
  lemma ReassignListener(prev: Option<Source>, next: Option<Source>)
    ensures Attach(Detach(ListeningTo(prev), prev), next) == ListeningTo(next)
  {
  }

  /** Whatever the bag held before, after the swap the handler is on `next`
      if it notifies, `prev` has lost exactly one occurrence if it notifies
      and is a different source, and no other source is touched. */
  lemma {:induction false} SwapEffect(listeners: multiset<SourceId>, prev: Option<Source>, next: Option<Source>)
    ensures Notifies(next) ==> next.value.id in Attach(Detach(listeners, prev), next)
    ensures Notifies(prev) && (next.None? || next.value.id != prev.value.id) ==>
      Attach(Detach(listeners, prev), next)[prev.value.id] ==
        if listeners[prev.value.id] == 0 then 0 else listeners[prev.value.id] - 1
    ensures forall id :: (prev.None? || id != prev.value.id) && (next.None? || id != next.value.id) ==>
      Attach(Detach(listeners, prev), next)[id] == listeners[id]
  {
  }

  /** On a source whose elements are all objects, the emptiness test of
      `ItemsChanged` and the `Count` test of `ItemsPropertyChanged` agree. */
  lemma {:induction false} EmptinessRulesAgree(sender: Source)
    requires sender.isList
    requires forall i :: 0 <= i < |sender.elements| ==> sender.elements[i].Object?
    ensures IsEmptyItems(Some(sender)) <==> IsZeroCount(sender)
  {
    if sender.elements != [] {
      assert sender.elements[0].Object?;
    }
  }

  /** A non-empty list holding only null references: assigning it counts as
      empty, while a `Count` notification from it counts as non-empty. */
  lemma NullOnlyListDisagrees(sender: Source)
    requires sender.isList && sender.elements != []
    requires forall i :: 0 <= i < |sender.elements| ==> sender.elements[i].NullElement?
    ensures IsEmptyItems(Some(sender))
    ensures !IsZeroCount(sender)
  {
  }
}
