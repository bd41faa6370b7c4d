/**
 * The base class of every noise module (ModuleBase.cs): the quality modes, the
 * exceptions the library raises, and the fixed-arity array of source-module slots
 * that the indexer reads and writes.
 */
module ModuleBase {
  import opened Wrappers

  /** The three interpolation kernels the coherent-noise primitive can use. */
  datatype QualityMode = Low | Medium | High

  /** The exceptions (and failed debug assertions) the library code can raise. */
  datatype Fault =
    | AssertionFailed        // a System.Diagnostics.Debug.Assert that does not hold
    | MissingSource          // a Debug.Assert that a source-module slot is filled
    | TooFewControlPoints    // a Debug.Assert on the number of control points
    | ArgumentOutOfRange
    | ArgumentNull
    | Argument
    | NullReference
    | IndexOutOfRange
    | Overflow
    | NotImplemented

  lemma QualityModeHasThreeValues(q: QualityMode)
    ensures q == Low || q == Medium || q == High
  {
  }

  /** Index of the first empty slot in `s`, or |s| when every slot is filled. */
  function FirstEmpty<M>(s: seq<Option<M>>): (k: nat)
    ensures k <= |s|
    ensures forall i :: 0 <= i < k ==> s[i].Some?
    ensures k < |s| ==> s[k].None?
  {
    if s == [] then 0
    else if s[0].None? then 0
    else 1 + FirstEmpty(s[1..])
  }

  /**
   * The `m_modules` array of a module: `null` for a module built with no sources,
   * otherwise `count` slots, each empty (`None`) or holding a source module.
   */
  class Sources<M> {
    var modules: array?<Option<M>>
    var disposed: bool

    /** The slots as a sequence; a module without a slot array has none. */
    ghost function Slots(): seq<Option<M>>
      reads this, modules
    {
      if modules == null then [] else modules[..]
    }

    /** `ModuleBase(int count)`: allocates `count` empty slots when count > 0. */
    constructor (count: int)
      ensures count > 0 ==> modules != null && fresh(modules)
      ensures count <= 0 ==> modules == null
      ensures |Slots()| == (if count > 0 then count else 0)
      ensures forall i :: 0 <= i < |Slots()| ==> Slots()[i] == None
      ensures !disposed
    {
      if count > 0 {
        modules := new Option<M>[count](_ => None);
      } else {
        modules := null;
      }
      disposed := false;
    }

    /** `SourceModuleCount`: the number of slots. */
    function SourceModuleCount(): (n: int)
      reads this
      ensures n >= 0
      ensures modules == null ==> n == 0
      ensures modules != null ==> n == modules.Length
    {
      if modules == null then 0 else modules.Length
    }

    /**
     * The indexer's getter. Without a slot array the first debug assertion fails;
     * an index outside the slots raises ArgumentOutOfRange; an empty slot raises
     * ArgumentNull; otherwise the stored module is returned.
     */
    method Get(index: int) returns (r: Result<M, Fault>)
      ensures |Slots()| == 0 ==> r == Failure(AssertionFailed)
      ensures |Slots()| > 0 && !(0 <= index < |Slots()|) ==> r == Failure(ArgumentOutOfRange)
      ensures 0 <= index < |Slots()| && Slots()[index].None? ==> r == Failure(ArgumentNull)
      ensures 0 <= index < |Slots()| && Slots()[index].Some? ==> r == Success(Slots()[index].value)
    {
      if modules == null || modules.Length == 0 {
        return Failure(AssertionFailed);
      }
      if index < 0 || index >= modules.Length {
        return Failure(ArgumentOutOfRange);
      }
      if modules[index].None? {
        return Failure(ArgumentNull);
      }
      return Success(modules[index].value);
    }

    /**
     * The indexer's setter. Without a slot array, evaluating `m_modules.Length`
     * inside the debug assertion dereferences null; an out-of-range index raises
     * ArgumentOutOfRange and a null value ArgumentNull. On success only slot
     * `index` changes; the slot array itself is never replaced.
     */
    method Set(index: int, value: Option<M>) returns (r: Outcome<Fault>)
      modifies modules
      ensures modules == old(modules)
      ensures modules == null ==> r == Fail(NullReference)
      ensures modules != null && modules.Length == 0 ==> r == Fail(AssertionFailed)
      ensures old(|Slots()|) > 0 && !(0 <= index < old(|Slots()|)) ==> r == Fail(ArgumentOutOfRange)
      ensures 0 <= index < old(|Slots()|) && value.None? ==> r == Fail(ArgumentNull)
      ensures 0 <= index < old(|Slots()|) && value.Some? ==> r == Pass
      ensures r.Pass? ==> Slots() == old(Slots())[index := value]
      ensures r.Fail? ==> Slots() == old(Slots())
    {
      if modules == null {
        return Fail(NullReference);
      }
      if modules.Length == 0 {
        return Fail(AssertionFailed);
      }
      if index < 0 || index >= modules.Length {
        return Fail(ArgumentOutOfRange);
      }
      if value.None? {
        return Fail(ArgumentNull);
      }
      modules[index] := value;
      return Pass;
    }

    /**
     * `Dispose`: runs `Disposing` once. `Disposing` walks the slots; an empty slot
     * raises NullReference (the slots before it are already cleared and the module
     * stays undisposed); otherwise every slot is cleared and the slot array dropped.
     * The recursive disposal of the children themselves is not part of this model.
     */
    method Dispose() returns (r: Outcome<Fault>)
      modifies this, modules
      ensures old(disposed) ==>
        r == Pass && modules == old(modules) && disposed && Slots() == old(Slots())
      ensures !old(disposed) ==> var k := FirstEmpty(old(Slots()));
        if k < old(|Slots()|) then
          r == Fail(NullReference) && !disposed && modules == old(modules)
          && |Slots()| == old(|Slots()|)
          && (forall i :: 0 <= i < k ==> Slots()[i] == None)
          && (forall i :: k <= i < |Slots()| ==> Slots()[i] == old(Slots())[i])
        else
          r == Pass && disposed && modules == null
    {
      if disposed {
        return Pass;
      }
      if modules != null {
        var slots := modules;
        ghost var was := slots[..];
        var i := 0;
        while i < slots.Length
          invariant modules == slots && |was| == slots.Length
          invariant 0 <= i <= slots.Length
          invariant forall j :: 0 <= j < i ==> was[j].Some? && slots[j] == None
          invariant forall j :: i <= j < slots.Length ==> slots[j] == was[j]
          invariant !disposed
        {
          if slots[i].None? {
            return Fail(NullReference);
          }
          slots[i] := None;
          i := i + 1;
        }
        modules := null;
      }
      disposed := true;
      return Pass;
    }
  }
}
