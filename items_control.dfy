/** `Perspex.Controls.ItemsControl`: the ":empty" pseudo-class kept in step
    with the items source, the listener it hangs on that source, the lazily
    created item container generator and the lazily created or replaced
    logical-children view. */
module Controls {
  import Classes
  import opened Sources

  /** The pseudo-class that marks a control with no items. */
  const EmptyClass: string := ":empty"

  /** The only property name whose change notification the control reacts to. */
  const CountProperty: string := "Count"

  /** The class-list step both handlers take: add ":empty" when the items are
      empty, remove it otherwise. It never touches another class. */
  function ToggleEmpty(classes: seq<string>, empty: bool): (r: seq<string>)
    ensures empty ==> EmptyClass in r
    ensures Classes.NoDup(classes) ==> Classes.NoDup(r) && (EmptyClass in r <==> empty)
    ensures forall t :: t != EmptyClass ==> (t in r <==> t in classes)
  {
    if empty then Classes.Add(classes, EmptyClass)
    else
      assert forall t :: t != EmptyClass ==> (t in Classes.Remove(classes, EmptyClass) <==> t in classes) by {
        forall t | t != EmptyClass
          ensures t in Classes.Remove(classes, EmptyClass) <==> t in classes
        {
          Classes.RemoveKeepsOthers(classes, EmptyClass, t);
        }
      }
      assert Classes.NoDup(classes) ==>
        Classes.NoDup(Classes.Remove(classes, EmptyClass)) && EmptyClass !in Classes.Remove(classes, EmptyClass) by {
        if Classes.NoDup(classes) {
          Classes.RemoveNoDup(classes, EmptyClass);
        }
      }
      Classes.Remove(classes, EmptyClass)
  }

  /** Reporting the same emptiness twice changes nothing the second time. */
  lemma ToggleEmptyIdempotent(classes: seq<string>, empty: bool)
    requires Classes.NoDup(classes)
    ensures ToggleEmpty(ToggleEmpty(classes, empty), empty) == ToggleEmpty(classes, empty)
  {
    if empty {
      Classes.AddIdempotent(classes, EmptyClass);
    } else {
      Classes.RemoveIdempotent(classes, EmptyClass);
    }
  }

  /** A list that had no ":empty" gets back exactly its old classes, in their
      old order, when an empty report is followed by a non-empty one. */
  lemma EmptyThenFilled(classes: seq<string>)
    requires EmptyClass !in classes
    ensures ToggleEmpty(ToggleEmpty(classes, true), false) == classes
  {
    Classes.AddThenRemove(classes, EmptyClass);
  }

  /** Creates the item containers of one control; only its owner is modelled. */
  class ItemContainerGenerator {
    const owner: ItemsControl

    constructor (owner: ItemsControl)
      ensures this.owner == owner
    {
      this.owner := owner;
    }
  }

  /** The template part named "itemsPresenter"; opaque here. */
  class ItemsPresenter {
    constructor ()
    {
    }
  }

  /** What a logical-children view projects: a list of its own, or the visual
      children of the panel inside an items presenter. */
  datatype ViewBacking = OwnList | PresenterPanel(presenter: ItemsPresenter)

  /** A read-only list view over visuals, seen as logical children; only what
      it is backed by and whether it has been disposed are modelled. */
  class LogicalChildrenView {
    const backing: ViewBacking
    var disposed: bool

    constructor (backing: ViewBacking)
      ensures this.backing == backing && !disposed
    {
      this.backing := backing;
      disposed := false;
    }

    method Dispose()
      modifies this
      ensures disposed
    {
      disposed := true;
    }
  }

  class ItemsControl {
    /** The control's class tags. */
    var classes: seq<string>
    /** The items sources whose `PropertyChanged` event holds `ItemsPropertyChanged`,
        once per subscription. */
    var listeners: multiset<SourceId>
    var itemContainerGenerator: ItemContainerGenerator?
    var logicalChildren: LogicalChildrenView?
    var presenter: ItemsPresenter?

    /** A cached generator belongs to this control; the current
        logical-children view is live; and a found presenter is always what
        that view projects. */
    ghost predicate LazyStateValid()
      reads this`itemContainerGenerator, this`logicalChildren, this`presenter, logicalChildren
    {
      (itemContainerGenerator != null ==> itemContainerGenerator.owner == this) &&
      (logicalChildren != null ==> !logicalChildren.disposed) &&
      (presenter != null ==> logicalChildren != null && logicalChildren.backing == PresenterPanel(presenter)) &&
      (logicalChildren != null && logicalChildren.backing.PresenterPanel? ==>
         presenter == logicalChildren.backing.presenter)
    }

    /** The class list has no duplicates, and the lazily built state is
        consistent. The two handlers ask only for the first half: they change
        nothing that `LazyStateValid` reads, so it survives them untouched. */
    ghost predicate Valid()
      reads this, logicalChildren
    {
      Classes.NoDup(classes) && LazyStateValid()
    }

    /** A new control: no classes, no generator, no view, no presenter, and
        `Items` at its default, null, so no listener anywhere. */
    constructor ()
      ensures Valid()
      ensures classes == [] && listeners == ListeningTo(None)
      ensures itemContainerGenerator == null && logicalChildren == null && presenter == null
    {
      classes := [];
      listeners := multiset{};
      itemContainerGenerator := null;
      logicalChildren := null;
      presenter := null;
    }

    /** The `ItemContainerGenerator` getter: creates the generator on the
        first read and hands back that same one on every later read. */
    method GetItemContainerGenerator() returns (g: ItemContainerGenerator)
      requires Valid()
      modifies this`itemContainerGenerator
      ensures Valid()
      ensures old(itemContainerGenerator) == null ==> fresh(g)
      ensures old(itemContainerGenerator) != null ==> g == old(itemContainerGenerator)
      ensures itemContainerGenerator == g && g.owner == this
    {
      if itemContainerGenerator == null {
        itemContainerGenerator := CreateItemContainerGenerator();
      }
      g := itemContainerGenerator;
    }

    /** The default generator factory: a new generator owned by this control. */
    method CreateItemContainerGenerator() returns (g: ItemContainerGenerator)
      ensures fresh(g) && g.owner == this
    {
      g := new ItemContainerGenerator(this);
    }

    /** The `ILogical.LogicalChildren` getter: creates a view over a list of
        its own on the first read while there is none, and otherwise returns
        the current view. */
    method GetLogicalChildren() returns (v: LogicalChildrenView)
      requires Valid()
      modifies this`logicalChildren
      ensures Valid()
      ensures old(logicalChildren) == null ==> fresh(v) && v.backing == OwnList && !v.disposed
      ensures old(logicalChildren) != null ==> v == old(logicalChildren)
      ensures logicalChildren == v
    {
      if logicalChildren == null {
        logicalChildren := new LogicalChildrenView(OwnList);
      }
      v := logicalChildren;
    }

    /** `OnTemplateApplied`, given what the template search for
        "itemsPresenter" found: the previous view is disposed and dropped,
        the presenter is recorded, and a new view over its panel is installed
        only when a presenter was found. */
    method OnTemplateApplied(found: ItemsPresenter?)
      requires Valid()
      modifies this, logicalChildren
      ensures Valid()
      ensures old(logicalChildren) != null ==> old(logicalChildren).disposed
      ensures presenter == found
      ensures found == null ==> logicalChildren == null
      ensures found != null ==>
        fresh(logicalChildren) && logicalChildren.backing == PresenterPanel(found) && !logicalChildren.disposed
      ensures classes == old(classes) && listeners == old(listeners)
      ensures itemContainerGenerator == old(itemContainerGenerator)
    {
      if logicalChildren != null {
        logicalChildren.Dispose();
        logicalChildren := null;
      }
      presenter := found;
      if presenter != null {
        logicalChildren := new LogicalChildrenView(PresenterPanel(presenter));
      }
    }

    /** The step both handlers take on the class list: `Classes.Add(":empty")`
        when `empty`, `Classes.Remove(":empty")` otherwise. */
    method SetEmptyClass(empty: bool)
      requires Classes.NoDup(classes)
      modifies this`classes
      ensures Classes.NoDup(classes)
      ensures classes == ToggleEmpty(old(classes), empty)
    {
      if empty {
        classes := Classes.Add(classes, EmptyClass);
      } else {
        classes := Classes.Remove(classes, EmptyClass);
      }
      assert classes == ToggleEmpty(old(classes), empty);
    }

    /** `ItemsChanged`, called with the previous and the new value of `Items`:
        unhooks from the previous source, sets ":empty" exactly when the new
        value is null or yields no object, and hooks into the new source. */
    method ItemsChanged(prev: Option<Source>, next: Option<Source>)
      requires Classes.NoDup(classes)
      modifies this`classes, this`listeners
      ensures Classes.NoDup(classes)
      ensures classes == ToggleEmpty(old(classes), IsEmptyItems(next))
      ensures IsEmptyItems(next) ==> EmptyClass in classes
      ensures !IsEmptyItems(next) ==> EmptyClass !in classes
      ensures forall t :: t != EmptyClass ==> (t in classes <==> t in old(classes))
      ensures listeners == Attach(Detach(old(listeners), prev), next)
      ensures Notifies(next) ==> next.value.id in listeners
      ensures Notifies(prev) && (next.None? || next.value.id != prev.value.id) && old(listeners)[prev.value.id] <= 1 ==>
        prev.value.id !in listeners
      ensures old(listeners) == ListeningTo(prev) ==> listeners == ListeningTo(next)
    {
      if Notifies(prev) {
        listeners := listeners - multiset{prev.value.id};
      }
      assert listeners == Detach(old(listeners), prev);
      SetEmptyClass(next.None? || !AnyObject(next.value.elements));
      if Notifies(next) {
        listeners := listeners + multiset{next.value.id};
      }
      assert listeners == Attach(Detach(old(listeners), prev), next);
      SwapEffect(old(listeners), prev, next);
      ReassignListener(prev, next);
    }

    /** `ItemsPropertyChanged`, the handler hooked into a source: only a
        "Count" change does anything, and it sets ":empty" exactly when the
        sender's count is zero. The sender must then be a list. */
    method ItemsPropertyChanged(sender: Source, propertyName: string)
      requires propertyName == CountProperty ==> sender.isList
      requires Classes.NoDup(classes)
      modifies this`classes
      ensures Classes.NoDup(classes)
      ensures propertyName != CountProperty ==> classes == old(classes)
      ensures propertyName == CountProperty ==> classes == ToggleEmpty(old(classes), IsZeroCount(sender))
      ensures propertyName == CountProperty ==> (EmptyClass in classes <==> |sender.elements| == 0)
      ensures forall t :: t != EmptyClass ==> (t in classes <==> t in old(classes))
    {
      if propertyName == CountProperty {
        SetEmptyClass(|sender.elements| == 0);
      }
    }
  }

  /** A client scenario: it calls the handlers for an empty notifying list
      being assigned, one item being appended and removed again, and an
      unrelated property change. */
  method EmptinessScenario()
  {
    var c := new ItemsControl();
    var list := Source(1, [], true, true);
    assert IsEmptyItems(Some(list));
    c.ItemsChanged(None, Some(list));
    assert EmptyClass in c.classes && c.listeners == multiset{1};
    var grown := Source(1, [Object(7)], true, true);
    c.ItemsPropertyChanged(grown, CountProperty);
    assert EmptyClass !in c.classes;
    c.ItemsPropertyChanged(list, CountProperty);
    assert EmptyClass in c.classes;
    c.ItemsPropertyChanged(list, "Items[]");
    assert EmptyClass in c.classes && c.listeners == multiset{1};
  }

  /** A client scenario: calls that replace a notifying source by a
      non-notifying one with an item clear ":empty" and release the first
      source. */
  method ReplaceScenario()
  {
    var c := new ItemsControl();
    var list := Source(1, [], true, true);
    c.ItemsChanged(None, Some(list));
    var other := Source(2, [Object(3)], false, false);
    assert !IsEmptyItems(Some(other));
    c.ItemsChanged(Some(list), Some(other));
    assert EmptyClass !in c.classes && c.listeners == multiset{};
  }

  /** A client scenario: the generator is created once and then reused, even
      across an items change; applying a template with a presenter and then
      one without disposes each earlier view. */
  method LazyStateScenario(found: ItemsPresenter)
  {
    var c := new ItemsControl();
    var g1 := c.GetItemContainerGenerator();
    c.ItemsChanged(None, Some(Source(1, [Object(5)], true, true)));
    var g2 := c.GetItemContainerGenerator();
    assert g1 == g2 && g1.owner == c;
    var own := c.GetLogicalChildren();
    c.OnTemplateApplied(found);
    var panel := c.GetLogicalChildren();
    assert own.disposed && own != panel && panel.backing == PresenterPanel(found);
    c.OnTemplateApplied(null);
    assert panel.disposed && c.logicalChildren == null && c.presenter == null;
  }
}
