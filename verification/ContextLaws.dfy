/** What the engine's operations on dictionaries mean, entry by entry. */
module ContextLaws {
  import opened Json
  import opened WorkflowEngine

  /** `d` has the entries of both, and those of `over` where both have one. */
  ghost predicate Overlays(d: Dict, under: Dict, over: Dict) {
    (forall k :: k in d <==> k in under || k in over) &&
    (forall k :: k in over ==> d[k] == over[k]) &&
    forall k :: k in under && k !in over ==> d[k] == under[k]
  }

  lemma MergeOverlays(under: Dict, over: Dict)
    ensures Overlays(under + over, under, over)
  {
  }

  /** A definition that is a dictionary gives its "default", if it has one. */
  predicate IsDefault(value: Json, definition: Json) {
    if !definition.Obj? then value == definition
    else if "default" in definition.fields then value == definition.fields["default"]
    else value == Null
  }

  ghost predicate AreDefaults(vars: Dict, definitions: Dict) {
    (forall k :: k in vars <==> k in definitions) && forall k :: k in definitions ==> IsDefault(vars[k], definitions[k])
  }

  lemma DefaultsAre(definitions: Dict)
    ensures AreDefaults(Defaults(definitions), definitions)
  {
  }

  // ---- the context of a re-run ----

  /** A re-run starts in `start` when it comes from the context `base`: the override's
      entries over the data, and the defaults of declared variables that are not set. */
  ghost predicate StartsFrom(start: View, base: View, override: Dict, definitions: Dict) {
    Overlays(start.data, base.data, override) && start.outputs == base.outputs &&
    exists defaults :: AreDefaults(defaults, definitions) && Overlays(start.vars, defaults, base.vars)
  }

  /** It comes from the replay state of the node's first result, or without one from the
      final snapshot, which has no node outputs. */
  ghost predicate RestoresFrom(start: View, results: seq<Entry>, snapshot: View, id: string, override: Dict,
                               definitions: Dict) {
    (forall k | 0 <= k < |results| && results[k].nodeId == id && (forall j :: 0 <= j < k ==> results[j].nodeId != id) ::
       StartsFrom(start, results[k].replay, override, definitions)) &&
    ((forall k :: 0 <= k < |results| ==> results[k].nodeId != id) ==>
       StartsFrom(start, View(snapshot.data, snapshot.vars, map[]), override, definitions))
  }

  lemma OverlayStarts(base: View, override: Dict, definitions: Dict)
    ensures StartsFrom(base.(data := base.data + override, vars := Defaults(definitions) + base.vars), base, override,
                       definitions)
  {
    MergeOverlays(base.data, override);
    DefaultsAre(definitions);
    MergeOverlays(Defaults(definitions), base.vars);
  }

  // ---- what an iteration or item reports ----

  /** The entry is new after the body, or differs from what it was before. */
  ghost predicate IsChanged(before: Dict, after: Dict, k: string) {
    k in after && (k !in before || before[k] != after[k])
  }

  /** Exactly the new and different entries, as they are after the body; without any, the
      item, in a dictionary of its own if it is not one. */
  ghost predicate Reports(before: Dict, after: Dict, item: Json, result: Json) {
    if exists k :: IsChanged(before, after, k) then
      result.Obj? && (forall k :: k in result.fields <==> IsChanged(before, after, k)) &&
      forall k :: k in result.fields ==> result.fields[k] == after[k]
    else result == if item.Obj? then item else Obj(map["value" := item])
  }

  lemma OutputReports(before: Dict, after: Dict, item: Json)
    ensures Reports(before, after, item, ItemOutput(before, after, item))
  {
    var changed := Changed(before, after);
    if k :| IsChanged(before, after, k) {
      assert k in changed;
    } else {
      assert forall k :: k in changed ==> IsChanged(before, after, k);
    }
  }
}
