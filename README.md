# ItemsControl ":empty" state, in Dafny

This project models the core of `Perspex.Controls.ItemsControl`: the rule that
keeps the `":empty"` pseudo-class in step with the control's items source, and
the two pieces of lazily built state that sit in the same class.

- **Assigning an items source.** `ItemsChanged` gets the previous and the new
  value of `Items`. It unhooks its handler from the previous source if that
  source implements `INotifyPropertyChanged`. It adds `":empty"` when the new
  value is null or yields no object, and removes it otherwise. Then it hooks
  the handler into the new source if that source notifies.
- **A property change on a source.** `ItemsPropertyChanged` reacts only to the
  property name `"Count"`. It adds `":empty"` when the sender's `IList.Count`
  is zero and removes it otherwise.
- **The item container generator** is created on the first read and the same
  instance is returned on every later read.
- **The logical-children view** is created over a private empty list on the
  first read when there is none. `OnTemplateApplied` disposes and drops the
  current view. It installs a new view over the presenter's panel only when the
  template holds an `"itemsPresenter"`.

Files and modules:

- `classes.dfy`, module `Classes`: the control's class-tag collection. It is an
  ordered list without duplicates, with `Add` and `Remove`.
- `sources.dfy`, module `Sources`: snapshots of items sources, the
  `OfType<object>().Any()` test, and the bag of sources that hold the handler.
  Hooking the handler is `+ multiset{id}`. Unhooking is `- multiset{id}`, which
  removes one occurrence, as C#'s `-=` does.
- `items_control.dfy`, module `Controls`: the class `ItemsControl`, with fields
  `classes`, `listeners`, `itemContainerGenerator`, `logicalChildren` and
  `presenter`. Its methods carry `modifies`/`ensures` clauses. The generator,
  the view and the presenter are small opaque classes. Three client methods
  (`EmptinessScenario`, `ReplaceScenario`, `LazyStateScenario`) call the
  methods in sequence and state the expected outcome as assertions, which the
  verifier proves.

Behaviours of the code worth knowing:

- The two emptiness tests are not the same test. On assignment, emptiness
  means "enumerates no non-null element", because `OfType<object>()` drops
  nulls. On a notification, emptiness means `Count == 0`. A list that holds
  only `null` therefore gets `":empty"` when it is assigned. The same list loses
  `":empty"` on its next `"Count"` notification. `Sources.NullOnlyListDisagrees`
  states this. `Sources.EmptinessRulesAgree` shows the two tests agree on
  lists without nulls.
- The handler is hooked into `PropertyChanged` and acts on the name `"Count"`
  only. It does not check that the sender is the current `Items` value. If a stale subscription is still attached, a
  notification from an old source still toggles `":empty"`.
- Unhooking removes one subscription. The previous source is fully released
  only if it held the handler at most once. If the handler bag held exactly
  the previous source before the call, it holds exactly the new one after
  (`ItemsChanged`'s last ensures, from `Sources.ReassignListener`).
  `Sources.ListeningTo` is that bag for a given `Items` value: the handler
  once on the value if it notifies, and nowhere else.
  `Sources.Notifies` is the `value as INotifyPropertyChanged != null` test of
  `ItemsControl.cs` lines 109 and 125: a non-null value that implements the
  interface. What it means for the handler bag is stated by the contracts of
  `Sources.Detach`, `Sources.Attach` and `ItemsChanged`.

## Model

| member | source | states |
|---|---|---|
| Controls.ItemsControl.constructor | Perspex.Controls/ItemsControl.cs:32-41 | a new control has no class tags, no listener (the default of `Items` is null), no generator, no logical-children view and no presenter |
| Controls.ItemsControl.GetItemContainerGenerator | Perspex.Controls/ItemsControl.cs:43-54 | the first read creates a fresh generator owned by the control; every later read returns that same instance and creates nothing; the cache then holds the result |
| Controls.ItemsControl.CreateItemContainerGenerator | Perspex.Controls/ItemsControl.cs:83-86 | returns a fresh generator whose owner is this control |
| Controls.ItemsControl.GetLogicalChildren | Perspex.Controls/ItemsControl.cs:68-81 | with no current view, installs and returns a fresh, live view over a list of its own; otherwise returns the current view unchanged |
| Controls.ItemsControl.OnTemplateApplied | Perspex.Controls/ItemsControl.cs:88-105 | any previous view is disposed; the presenter becomes what the template search found; with no presenter the view stays null; with one, a fresh live view over that presenter's panel is installed; classes, listeners and the generator are unchanged |
| Controls.ItemsControl.SetEmptyClass | Perspex.Controls/ItemsControl.cs:116-123 | the shared if/else of both handlers: the class list becomes `ToggleEmpty` of the old list and stays duplicate-free |
| Controls.ItemsControl.ItemsChanged | Perspex.Controls/ItemsControl.cs:107-131 | ":empty" is present afterwards exactly when the new value is null or yields no object; no other tag changes; the handler is detached once from the old source if it notifies and attached to the new one if it notifies; a different old source that held the handler at most once no longer holds it; a bag listening to the old source alone ends up listening to the new source alone |
| Controls.ItemsControl.ItemsPropertyChanged | Perspex.Controls/ItemsControl.cs:133-146 | a name other than "Count" leaves the class list unchanged; "Count" (which needs a list sender) leaves ":empty" present exactly when the sender's count is zero; no other tag changes; listeners untouched |
| Controls.ToggleEmpty | Perspex.Controls/ItemsControl.cs:116-123 | on a duplicate-free list the result is duplicate-free and holds ":empty" exactly when `empty` holds; every other tag is present exactly when it was |
| Controls.ToggleEmptyIdempotent | Perspex.Controls/ItemsControl.cs:135-145 | reporting the same emptiness twice in a row leaves the class list as the first report left it |
| Controls.EmptyThenFilled | Perspex.Controls/ItemsControl.cs:137-144 | on a list without ":empty", going empty and then non-empty restores the exact original list, order included |
| Classes.Add | Perspex.Controls/ItemsControl.cs:118 | the name is present afterwards; the members are the old ones plus the name; an already-present name leaves the list unchanged, otherwise the name is appended; duplicate-freedom is kept |
| Classes.IndexOf | Perspex.Controls/ItemsControl.cs:122 | the position of the first occurrence of a present name |
| Classes.RemoveDeletesFirst | Perspex.Controls/ItemsControl.cs:122 | `Remove` deletes exactly the first occurrence and keeps every other tag in order; an absent name leaves the list unchanged |
| Classes.RemoveMultiset | Perspex.Controls/ItemsControl.cs:143 | exactly one occurrence of the name leaves the bag of tags |
| Classes.RemoveKeepsOthers | Perspex.Controls/ItemsControl.cs:143 | every other tag is present after `Remove` exactly when it was before |
| Classes.RemoveNoDup | Perspex.Controls/ItemsControl.cs:122 | on a duplicate-free list, `Remove` keeps it duplicate-free and the name is gone |
| Classes.AddIdempotent | Perspex.Controls/ItemsControl.cs:139 | adding a name twice equals adding it once |
| Classes.RemoveIdempotent | Perspex.Controls/ItemsControl.cs:143 | on a duplicate-free list, removing a name twice equals removing it once |
| Classes.AddThenRemove | Perspex.Controls/ItemsControl.cs:139-143 | adding an absent name and then removing it restores the list exactly |
| Classes.RemoveThenAdd | Perspex.Controls/ItemsControl.cs:139-143 | removing a present name and adding it back keeps the same tags and length, with the name moved to the end |
| Sources.AnyObject | Perspex.Controls/ItemsControl.cs:116 | `OfType<object>().Any()` is true exactly when some enumerated element is non-null |
| Classes.Remove | Perspex.Controls/ItemsControl.cs:122 | the list shrinks by one exactly when the name was present; an absent name leaves the list unchanged |
| Sources.IsEmptyItems | Perspex.Controls/ItemsControl.cs:116 | the assignment test holds exactly when the value is null or every element it enumerates is a null reference |
| Sources.IsZeroCount | Perspex.Controls/ItemsControl.cs:137 | the notification test holds exactly when the list has no elements, and then the assignment test holds too |
| Sources.Detach | Perspex.Controls/ItemsControl.cs:111-114 | unhooking never adds a subscription; it removes one subscription of a notifying source that holds the handler and changes nothing for any other source |
| Sources.Attach | Perspex.Controls/ItemsControl.cs:125-130 | hooking never removes a subscription; a notifying source gains exactly one and then holds the handler; no other source changes |
| Controls.LogicalChildrenView.Dispose | Perspex.Controls/ItemsControl.cs:92 | the view is marked disposed |
| Sources.ReassignListener | Perspex.Controls/ItemsControl.cs:109-130 | starting from a bag listening to the old value alone, unhooking and hooking leaves a bag listening to the new value alone |
| Sources.SwapEffect | Perspex.Controls/ItemsControl.cs:109-130 | after unhook and hook, a notifying new source holds the handler; a notifying, different old source lost exactly one subscription; no other source is touched |
| Sources.EmptinessRulesAgree | Perspex.Controls/ItemsControl.cs:116-137 | for a list with no null elements, the assignment test (no object) and the notification test (Count is 0) agree |
| Sources.NullOnlyListDisagrees | Perspex.Controls/ItemsControl.cs:116-137 | every non-empty list whose elements are all null counts as empty on assignment but as non-empty on a Count notification |

## Left out

- The property system: registering `ItemsProperty` and `ItemsPanelProperty` (with its default `StackPanel` panel template), and the `Items`/`ItemsPanel` getters and setters that call `GetValue`/`SetValue`. Their implementation is not part of this model.
- The observable-with-history subscription made in the constructor. `ItemsChanged` is called directly with an (old, new) pair. Subscription timing and any initial emission at subscribe time are not modelled, so the constructor does not run `ItemsChanged`.
- The implementation of the `Classes` collection is not part of this model. It is taken to be an ordered list without duplicates: `Add` appends a name only if it is absent, and `Remove` deletes the first occurrence.
- Real CLR events and delegates. A subscription is one occurrence of the source's id in a multiset.
- The `(IList)sender` cast and its exception. `ItemsPropertyChanged` requires the sender to be a list when the name is "Count".
- A null `PropertyName`. Names are plain strings here; a null name would behave like any name other than "Count".
- Items sources are snapshots: an id, the elements seen right now (null or some object), and two flags (notifies, is a list). LINQ's lazy enumeration is not modelled.
- `FindTemplateChild`, `GetVisualChildren().Single()` and the panel's visual children. The template search result is an input to `OnTemplateApplied`. A view records only what backs it and whether it was disposed; its contents and element projection are not modelled.
- Controls.ItemsControl.OnTemplateApplied: the exception `Single()` throws when the presenter does not hold exactly one visual child is not modelled. On that path the code has already disposed and cleared the old view and recorded the presenter, so `presenter` is non-null while `logicalChildren` is null; `LazyStateValid` does not hold after it, and the model assumes the presenter always has one panel.
- Controls.ItemsControl.CreateItemContainerGenerator: the factory is `protected virtual`; dispatch to overrides is not modelled. The model uses the base body, so it always returns a fresh generator owned by the control.
- Controls.ItemsControl.GetItemContainerGenerator: its promises (a fresh generator on the first read, the same instance on every later read) rely on the factory returning a non-null generator. An override that returned null would make the getter call the factory on every read and return null each time.
- Visual-tree attachment, styling and the change notification raised when the class list changes.
- Perspex.Themes.Default/GridSplitterStyle.cs: a declarative style with no logic of its own.
