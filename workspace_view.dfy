/**
 * The workspace view-model (WorkspaceViewModel): built from a project, it
 * keeps the project's name, description and parameter keys, and a copy of
 * each run-parameter set's map, in array order.
 */
module WorkspaceView {
  import opened Wrappers
  import opened Domain

  class WorkspaceViewModel {
    var name: Option<string>
    var description: Option<string>
    var parameterKeys: seq<string>
    var runParametersData: seq<map<string, Option<string>>>

    /** The property initialisers: no name or description, no keys and no data. */
    constructor ()
      ensures name.None? && description.None? && parameterKeys == [] && runParametersData == []
    {
      name, description := None, None;
      parameterKeys := [];
      runParametersData := [];
    }

    /**
     * The constructor taking a project. A null project is rejected first,
     * then null parameter keys (by the list copy), then a null array, a null
     * set or a null parameter map (by the enumeration). Otherwise the view-model
     * holds the project's texts and keys and one map per set, equal to that
     * set's map.
     */
    static method Create(project: Option<Project>) returns (r: Result<WorkspaceViewModel>)
      ensures project.None? ==> r == Err(ArgumentNullMessage(ValueCannotBeNull, "project"))
      ensures project.Some? && project.value.parameterKeys.None? ==>
                r == Err(ArgumentNullMessage(ValueCannotBeNull, "source"))
      ensures project.Some? && project.value.parameterKeys.Some? && project.value.runParametersArray.None? ==>
                r == Err(NullReferenceMessage)
      ensures project.Some? && project.value.parameterKeys.Some? && project.value.runParametersArray.Some? ==>
                var arr := project.value.runParametersArray.value;
                && (r.Ok? <==> forall i :: 0 <= i < |arr| ==> MapReadable(arr[i]))
                && (r.Err? ==> r.message == NullReferenceMessage)
      ensures r.Ok? ==>
                var p := project.value;
                var arr := p.runParametersArray.value;
                && r.value.name == p.name && r.value.description == p.description
                && r.value.parameterKeys == p.parameterKeys.value
                && |r.value.runParametersData| == |arr|
                && forall i :: 0 <= i < |arr| ==> r.value.runParametersData[i] == arr[i].paramMap.value
    {
      if project.None? {
        return Err(ArgumentNullMessage(ValueCannotBeNull, "project"));
      }
      var p := project.value;
      var vm := new WorkspaceViewModel();
      vm.name, vm.description := p.name, p.description;
      if p.parameterKeys.None? {
        return Err(ArgumentNullMessage(ValueCannotBeNull, "source"));
      }
      vm.parameterKeys := p.parameterKeys.value;
      if p.runParametersArray.None? {
        return Err(NullReferenceMessage);
      }
      var arr := p.runParametersArray.value;
      for i := 0 to |arr|
        invariant |vm.runParametersData| == i
        invariant forall j :: 0 <= j < i ==> MapReadable(arr[j]) && vm.runParametersData[j] == arr[j].paramMap.value
        invariant vm.name == p.name && vm.description == p.description && vm.parameterKeys == p.parameterKeys.value
      {
        if !MapReadable(arr[i]) {
          return Err(NullReferenceMessage);
        }
        var dict := CopyMap(arr[i].paramMap.value);
        vm.runParametersData := vm.runParametersData + [dict];
      }
      r := Ok(vm);
    }
  }

  /** Copies a parameter map entry by entry into a new dictionary. */
  method CopyMap(m: map<string, Option<string>>) returns (dict: map<string, Option<string>>)
    ensures dict == m
  {
    dict := map[];
    var remaining := m.Keys;
    while remaining != {}
      invariant remaining <= m.Keys
      invariant dict == map k | k in m.Keys - remaining :: m[k]
      decreases remaining
    {
      var k :| k in remaining;
      dict := dict[k := m[k]];
      remaining := remaining - {k};
    }
  }
}
