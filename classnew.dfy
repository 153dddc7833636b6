/** The `__new__` redirection the elasticsearch, requests and celery adapters share: instrument
    saves both classes' original __new__ into one-element module lists, then installs
    replacements bound to each class; uninstrument puts back every saved value that is not None. */
module ClassNew {
  import opened Py
  import opened Runtime
  import opened Utils
  import Constants

  /** A library class, the tracing class that replaces it, the slot of each, and the names of
      the module-level functions installed as their __new__. */
  datatype Patch = Patch(cls: string, clsSlot: Slot, clsNew: string,
                         tracingCls: string, tracingSlot: Slot, tracingNew: string)

  predicate WellFormed(k: Patch) {
    k.cls != k.tracingCls && k.clsSlot != k.tracingSlot
  }

  function NewAttr(cls: string): Attr {
    Attr(cls, "__new__")
  }

  /** cls.__new__, which always reads as something: a class without its own inherits object.__new__. */
  function SavedNew(attrs: map<Attr, Value>, cls: string): (r: Value)
    ensures GetAttrIn(attrs, NewAttr(cls)) == Ok(r)
    ensures NewAttr(cls) !in attrs ==> r == Builtin("object.__new__")
  {
    assert "object." + "__new__" == "object.__new__";
    GetAttrIn(attrs, NewAttr(cls)).value
  }

  /** The slots after `_cls_new[0] = Cls.__new__` and `_tracing_new[0] = TracingCls.__new__`. */
  function SavedSlots(slots: map<Slot, Value>, attrs: map<Attr, Value>, k: Patch): map<Slot, Value> {
    slots[k.clsSlot := SavedNew(attrs, k.cls)][k.tracingSlot := SavedNew(attrs, k.tracingCls)]
  }

  /** The attributes after `TracingCls.__new__ = tracing_new.__get__(TracingCls)` and
      `Cls.__new__ = cls_new.__get__(Cls)`. */
  function PatchedAttrs(attrs: map<Attr, Value>, k: Patch): map<Attr, Value> {
    attrs[NewAttr(k.tracingCls) := Bound(Func(k.tracingNew), k.tracingCls)][NewAttr(k.cls) := Bound(Func(k.clsNew), k.cls)]
  }

  /** How uninstrument puts a saved value back when it has no __get__: elasticsearch installs a
      generic `__new__` bound to the class and then empties the slot; requests and celery store
      the saved value as it is and leave the slot filled. */
  datatype Restore = GenericAndClear | RawAndKeep

  /** The value uninstrument installs for a saved __new__. */
  function RestoredNew(saved: Value, cls: string, style: Restore): Value {
    if HasGet(saved) then Bound(saved, cls)
    else if style.GenericAndClear? then Bound(Func("__new__"), cls)
    else saved
  }

  /** One `if _slot[0] is not None:` block, on the attributes ... */
  function RestoredAttrs(attrs: map<Attr, Value>, slots: map<Slot, Value>, s: Slot, cls: string, style: Restore): map<Attr, Value> {
    if SlotIn(slots, s) != None then attrs[NewAttr(cls) := RestoredNew(SlotIn(slots, s), cls, style)] else attrs
  }

  /** ... and on the slots. */
  function RestoredSlots(slots: map<Slot, Value>, s: Slot, style: Restore): map<Slot, Value> {
    if SlotIn(slots, s) != None && style.GenericAndClear? then slots[s := None] else slots
  }

  /** Both blocks, the tracing class's first. */
  function UnpatchedAttrs(attrs: map<Attr, Value>, slots: map<Slot, Value>, k: Patch, style: Restore): map<Attr, Value> {
    RestoredAttrs(RestoredAttrs(attrs, slots, k.tracingSlot, k.tracingCls, style),
                  RestoredSlots(slots, k.tracingSlot, style), k.clsSlot, k.cls, style)
  }

  function UnpatchedSlots(slots: map<Slot, Value>, k: Patch, style: Restore): map<Slot, Value> {
    RestoredSlots(RestoredSlots(slots, k.tracingSlot, style), k.clsSlot, style)
  }

  /** Saving, patching and then restoring from the saved slots gives each class the restored form
      of its original __new__ and touches no other attribute; elasticsearch's style leaves
      both slots empty, the other style leaves them holding the originals. */
  lemma SaveThenRestore(attrs: map<Attr, Value>, slots: map<Slot, Value>, k: Patch, style: Restore)
    requires WellFormed(k)
    requires SavedNew(attrs, k.cls) != None && SavedNew(attrs, k.tracingCls) != None
    ensures var a := UnpatchedAttrs(PatchedAttrs(attrs, k), SavedSlots(slots, attrs, k), k, style);
      && a[NewAttr(k.cls)] == RestoredNew(SavedNew(attrs, k.cls), k.cls, style)
      && a[NewAttr(k.tracingCls)] == RestoredNew(SavedNew(attrs, k.tracingCls), k.tracingCls, style)
      && OnlyChanged(attrs, a, {NewAttr(k.cls), NewAttr(k.tracingCls)})
    ensures var s := UnpatchedSlots(SavedSlots(slots, attrs, k), k, style);
      && (style.GenericAndClear? ==> SlotIn(s, k.clsSlot) == None && SlotIn(s, k.tracingSlot) == None)
      && (style.RawAndKeep? ==> SlotIn(s, k.clsSlot) == SavedNew(attrs, k.cls) &&
                                SlotIn(s, k.tracingSlot) == SavedNew(attrs, k.tracingCls))
  {
    var saved := SavedSlots(slots, attrs, k);
    assert SlotIn(saved, k.clsSlot) == SavedNew(attrs, k.cls);
    assert SlotIn(saved, k.tracingSlot) == SavedNew(attrs, k.tracingCls);
    assert SlotIn(RestoredSlots(saved, k.tracingSlot, style), k.clsSlot) == SavedNew(attrs, k.cls);
  }

  /** A saved value without __get__, such as the inherited object.__new__, is not restored as it
      was under elasticsearch's style, while the other style gives getattr back its old answer. */
  lemma BuiltinRestore(attrs: map<Attr, Value>, cls: string)
    requires NewAttr(cls) !in attrs
    ensures RestoredNew(SavedNew(attrs, cls), cls, GenericAndClear) == Bound(Func("__new__"), cls)
    ensures RestoredNew(SavedNew(attrs, cls), cls, GenericAndClear) != SavedNew(attrs, cls)
    ensures var back := attrs[NewAttr(cls) := RestoredNew(SavedNew(attrs, cls), cls, RawAndKeep)];
      GetAttrIn(back, NewAttr(cls)) == GetAttrIn(attrs, NewAttr(cls))
  {
  }

  /** A saved function is bound to its class again rather than stored as it was. */
  lemma DescriptorRestore(saved: Value, cls: string, style: Restore)
    requires HasGet(saved)
    ensures RestoredNew(saved, cls, style) == Bound(saved, cls)
  {
  }

  /** Under the raw style the slots are never changed. */
  lemma RawRestoreKeepsSlots(slots: map<Slot, Value>, k: Patch)
    ensures UnpatchedSlots(slots, k, RawAndKeep) == slots
  {
  }

  /** The attributes after an instrument that patches __new__, wraps attribute a and marks m,
      followed by an uninstrument that restores __new__ from the slots, reverts a and unmarks m. */
  function PatchedWrappedAttrs(attrs: map<Attr, Value>, k: Patch, a: Attr, wrapper: Value, m: string): map<Attr, Value>
    requires WrapIn(PatchedAttrs(attrs, k), a, wrapper).Ok?
  {
    WrappedAndMarked(PatchedAttrs(attrs, k), a, wrapper, m)
  }

  function RestoredRevertedAttrs(attrs: map<Attr, Value>, slots: map<Slot, Value>, k: Patch, style: Restore, a: Attr, m: string): map<Attr, Value> {
    RevertedAndUnmarked(UnpatchedAttrs(attrs, slots, k, style), a, m)
  }

  /** Restoring __new__ commutes with setting any other attribute. */
  lemma UnpatchCommutes(attrs: map<Attr, Value>, slots: map<Slot, Value>, k: Patch, style: Restore, x: Attr, v: Value)
    requires x != NewAttr(k.cls) && x != NewAttr(k.tracingCls)
    ensures UnpatchedAttrs(attrs[x := v], slots, k, style) == UnpatchedAttrs(attrs, slots, k, style)[x := v]
  {
    var s1 := RestoredSlots(slots, k.tracingSlot, style);
    var once := RestoredAttrs(attrs, slots, k.tracingSlot, k.tracingCls, style);
    assert RestoredAttrs(attrs[x := v], slots, k.tracingSlot, k.tracingCls, style) == once[x := v];
    assert RestoredAttrs(once[x := v], s1, k.clsSlot, k.cls, style) == RestoredAttrs(once, s1, k.clsSlot, k.cls, style)[x := v];
  }

  /** Restoring __new__ adds or replaces only the two __new__ attributes. */
  lemma UnpatchKeepsOthers(attrs: map<Attr, Value>, slots: map<Slot, Value>, k: Patch, style: Restore, x: Attr)
    requires x != NewAttr(k.cls) && x != NewAttr(k.tracingCls)
    ensures x in UnpatchedAttrs(attrs, slots, k, style) <==> x in attrs
    ensures x in attrs ==> UnpatchedAttrs(attrs, slots, k, style)[x] == attrs[x]
  {
  }

  /** The wrapped attribute and the marker come out of the round trip as they went in, so what
      is left is the __new__ round trip alone. */
  lemma PatchWrapRoundTrip(attrs: map<Attr, Value>, slots: map<Slot, Value>, k: Patch, a: Attr, wrapper: Value, m: string, style: Restore)
    requires a in attrs && a != NewAttr(k.cls) && a != NewAttr(k.tracingCls)
    requires Marker(m) !in attrs && a.name != Constants.InstrumentedAttr
    ensures WrapIn(PatchedAttrs(attrs, k), a, wrapper).Ok?
    ensures RestoredRevertedAttrs(PatchedWrappedAttrs(attrs, k, a, wrapper, m), SavedSlots(slots, attrs, k), k, style, a, m) ==
      UnpatchedAttrs(PatchedAttrs(attrs, k), SavedSlots(slots, attrs, k), k, style)
  {
    var patched := PatchedAttrs(attrs, k);
    var saved := SavedSlots(slots, attrs, k);
    PatchKeepsMarkers(attrs, k, m);
    assert a in patched && patched[a] == attrs[a];
    var w := Wrapped(attrs[a], wrapper);
    assert PatchedWrappedAttrs(attrs, k, a, wrapper, m) == patched[a := w][Marker(m) := Bool(true)];
    assert |"__new__"| != |Constants.InstrumentedAttr|;
    var unpatched := UnpatchedAttrs(patched, saved, k, style);
    UnpatchCommutes(patched[a := w], saved, k, style, Marker(m), Bool(true));
    UnpatchCommutes(patched, saved, k, style, a, w);
    UnpatchKeepsOthers(patched, saved, k, style, a);
    UnpatchKeepsOthers(patched, saved, k, style, Marker(m));
    var back := unpatched[a := w][Marker(m) := Bool(true)];
    assert Reverted(back, a) == unpatched[a := attrs[a]][Marker(m) := Bool(true)];
    assert unpatched[a := attrs[a]] == unpatched;
  }

  /** The saving and patching steps of instrument, in the source's order. */
  method SaveAndPatch(p: Process, k: Patch)
    requires p.Valid()
    modifies p`slots, p`attrs
    ensures p.Valid()
    ensures p.slots == SavedSlots(old(p.slots), old(p.attrs), k)
    ensures p.attrs == PatchedAttrs(old(p.attrs), k)
  {
    var clsNew := p.Lookup(NewAttr(k.cls));
    p.SetSlot(k.clsSlot, clsNew.value);
    var tracingNew := p.Lookup(NewAttr(k.tracingCls));
    p.SetSlot(k.tracingSlot, tracingNew.value);
    p.SetAttr(NewAttr(k.tracingCls), Bound(Func(k.tracingNew), k.tracingCls));
    p.SetAttr(NewAttr(k.cls), Bound(Func(k.clsNew), k.cls));
  }

  /** Patching touches only the two __new__ attributes, so no module's marker changes. */
  lemma PatchKeepsMarkers(attrs: map<Attr, Value>, k: Patch, m: string)
    ensures Marker(m) in PatchedAttrs(attrs, k) <==> Marker(m) in attrs
    ensures Marker(m) in attrs ==> PatchedAttrs(attrs, k)[Marker(m)] == attrs[Marker(m)]
  {
    assert |"__new__"| != |Constants.InstrumentedAttr|;
  }

  /** The steps the celery and requests adapters take once their own imports succeeded: save and
      patch __new__, import the module that defines the tracing class, wrap the tracing class's
      __init__ with wrapper, and mark m. */
  method PatchWrapAndMark(p: Process, k: Patch, tracingModule: string, a: Attr, wrapper: Value, m: string) returns (r: Result<()>)
    requires p.Valid() && m in p.modules && !IsInstrumented(p, m)
    requires a.name == "__init__"
    modifies p`modules, p`attrs, p`slots
    ensures p.Valid()
    ensures p.slots == SavedSlots(old(p.slots), old(p.attrs), k)
    ensures r.Ok? <==> old(p.Locatable(tracingModule))
    ensures r.Ok? <==> IsInstrumented(p, m)
    ensures r.Err? ==> r == Err(ImportError(tracingModule)) && p.modules == old(p.modules) && p.attrs == PatchedAttrs(old(p.attrs), k)
    ensures r.Ok? ==>
      && p.modules == old(p.modules) + {tracingModule}
      && WrapIn(PatchedAttrs(old(p.attrs), k), a, wrapper).Ok?
      && p.attrs == PatchedWrappedAttrs(old(p.attrs), k, a, wrapper, m)
  {
    SaveAndPatch(p, k);
    PatchKeepsMarkers(old(p.attrs), k, m);
    var tracing :- GetModule(p, tracingModule);
    var wrapped := p.WrapFunctionWrapper(a, wrapper);
    if wrapped.Err? {
      // getattr on __init__ always succeeds: the class inherits object.__init__.
      assert false;
    }
    MarkInstrumented(p, m);
    return Ok(());
  }

  /** One restoring block of uninstrument. */
  method RestoreNew(p: Process, s: Slot, cls: string, style: Restore)
    requires p.Valid()
    modifies p`slots, p`attrs
    ensures p.Valid()
    ensures p.attrs == RestoredAttrs(old(p.attrs), old(p.slots), s, cls, style)
    ensures p.slots == RestoredSlots(old(p.slots), s, style)
  {
    var saved := p.SlotValue(s);
    if saved != None {
      if HasGet(saved) {
        p.SetAttr(NewAttr(cls), Bound(saved, cls));
      } else if style.GenericAndClear? {
        p.SetAttr(NewAttr(cls), Bound(Func("__new__"), cls));
      } else {
        p.SetAttr(NewAttr(cls), saved);
      }
      if style.GenericAndClear? {
        p.SetSlot(s, None);
      }
    }
  }

  /** Both restoring blocks, the tracing class's first. */
  method RestoreBoth(p: Process, k: Patch, style: Restore)
    requires p.Valid()
    modifies p`slots, p`attrs
    ensures p.Valid()
    ensures p.attrs == UnpatchedAttrs(old(p.attrs), old(p.slots), k, style)
    ensures p.slots == UnpatchedSlots(old(p.slots), k, style)
  {
    RestoreNew(p, k.tracingSlot, k.tracingCls, style);
    RestoreNew(p, k.clsSlot, k.cls, style);
  }
}
