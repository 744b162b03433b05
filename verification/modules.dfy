/** The study-module library record and the planner's filters over it. */
module Modules {
  import opened Wrappers

  /** One entry of the module library. An absent `secondary_skills` or
      `prerequisites` key is the empty list. */
  datatype Module = Module(
    id: string,
    targetSkills: seq<string>,
    secondarySkills: seq<string>,
    difficultyLevel: string,
    phaseSuitability: seq<string>,
    prerequisites: seq<string>,
    estimatedMinutes: int)

  /** `check_prerequisites`: every listed prerequisite is already completed. */
  function CheckPrerequisites(m: Module, completed: set<string>): (ok: bool)
    ensures ok <==> forall k :: 0 <= k < |m.prerequisites| ==> m.prerequisites[k] in completed
  {
    AllCompleted(m.prerequisites, completed)
  }

  function AllCompleted(ids: seq<string>, completed: set<string>): (ok: bool)
    ensures ok <==> forall k :: 0 <= k < |ids| ==> ids[k] in completed
  {
    if |ids| == 0 then true else ids[0] in completed && AllCompleted(ids[1..], completed)
  }

  /** Completing more modules never un-satisfies a prerequisite check, and a
      module without prerequisites is always open. */
  lemma PrerequisitesMonotone(m: Module, a: set<string>, b: set<string>)
    requires a <= b
    ensures CheckPrerequisites(m, a) ==> CheckPrerequisites(m, b)
    ensures |m.prerequisites| == 0 ==> CheckPrerequisites(m, {})
  {
  }

  /** `filter_modules_by_phase`: the modules listing the phase, in library order. */
  function FilterByPhase(modules: seq<Module>, phase: string): (r: seq<Module>)
    ensures |r| <= |modules|
    ensures forall m :: m in r <==> m in modules && phase in m.phaseSuitability
  {
    if |modules| == 0 then []
    else
      var rest := FilterByPhase(modules[1..], phase);
      assert forall m :: m in modules <==> m == modules[0] || m in modules[1..];
      if phase in modules[0].phaseSuitability then [modules[0]] + rest else rest
  }

  /** Filtering distributes over concatenation, so the library order is kept. */
  lemma {:induction false} FilterByPhaseAppend(a: seq<Module>, b: seq<Module>, phase: string)
    ensures FilterByPhase(a + b, phase) == FilterByPhase(a, phase) + FilterByPhase(b, phase)
  {
    if |a| > 0 {
      assert (a + b)[1..] == a[1..] + b;
      FilterByPhaseAppend(a[1..], b, phase);
    } else {
      assert a + b == b;
    }
  }

  /** Filtering twice by the same phase changes nothing. */
  lemma {:induction false} FilterByPhaseIdempotent(modules: seq<Module>, phase: string)
    ensures FilterByPhase(FilterByPhase(modules, phase), phase) == FilterByPhase(modules, phase)
  {
    if |modules| > 0 {
      FilterByPhaseIdempotent(modules[1..], phase);
      var rest := FilterByPhase(modules[1..], phase);
      if phase in modules[0].phaseSuitability {
        assert ([modules[0]] + rest)[1..] == rest;
      }
    }
  }

  /** Position of the first library entry with the id, or |library| when none has it. */
  function FirstIndexWithId(library: seq<Module>, id: string): (k: nat)
    ensures k <= |library|
    ensures forall j :: 0 <= j < k ==> library[j].id != id
    ensures k < |library| ==> library[k].id == id
  {
    if |library| == 0 then 0
    else if library[0].id == id then 0
    else 1 + FirstIndexWithId(library[1..], id)
  }

  /** `get_module_by_id`: the first library entry with the id, if any. */
  function GetModuleById(library: seq<Module>, id: string): (r: Option<Module>)
    ensures r.None? <==> forall k :: 0 <= k < |library| ==> library[k].id != id
    ensures r.Some? ==> r.value.id == id && r.value == library[FirstIndexWithId(library, id)]
  {
    if |library| == 0 then None
    else if library[0].id == id then Some(library[0])
    else GetModuleById(library[1..], id)
  }
}
