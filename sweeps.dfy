/** The handlers of the state controller that loop, other than the reminder selection: the
    blank-template builder (a `for` loop filling a map), whose contract states the new state
    directly, and the auto-finalize `forEach` sweep over all batches, whose method is proved
    equal to a specification function; the properties of the sweep are lemmas about that function. */
module AppSweeps {
  import opened Types
  import opened Seqs
  import opened Time
  import opened App

  // ---------------------------------------------------------------- blank template

  /** `handleCreateBlankTemplate`: with a non-blank name (a cancelled prompt reads as ""), append a
      template whose days 1..14 all hold an empty task list. */
  method CreateBlankTemplate(s: AppState, name: string, freshId: string) returns (r: AppState)
    ensures name == "" ==> r == s
    ensures name != "" ==>
      r.batches == s.batches && r.downloadDirectory == s.downloadDirectory &&
      |r.templates| == |s.templates| + 1 && r.templates[..|s.templates|] == s.templates &&
      r.templates[|s.templates|].id == freshId && r.templates[|s.templates|].name == name &&
      (forall d :: d in r.templates[|s.templates|].schedule <==> 1 <= d <= 14) &&
      (forall d :: d in r.templates[|s.templates|].schedule ==> r.templates[|s.templates|].schedule[d] == [])
  {
    if name == "" {
      return s;
    }
    var blank: Schedule := map[];
    for i := 1 to 15
      invariant forall d :: d in blank <==> 1 <= d < i
      invariant forall d :: d in blank ==> blank[d] == []
    {
      blank := blank[i := []];
    }
    r := s.(templates := s.templates + [Template(freshId, name, blank)]);
  }

  // ---------------------------------------------------------------- auto-finalize

  /** A template with that name exists (`templates.some(t => t.name === name)`). */
  predicate TemplateNamed(templates: seq<Template>, name: Option<string>) {
    exists i :: 0 <= i < |templates| && Some(templates[i].name) == name
  }

  /** The condition under which the sweep calls `finalizeRecording` for batch `b`, judged
      against the snapshot `snap` the sweep closed over. */
  predicate Qualifies(snap: AppState, b: Batch, now: int) {
    && b.isRecording
    && CurrentDay(b.startDate, now) >= 14
    && !TemplateNamed(snap.templates, b.templateName)
    && Truthy(b.templateName)
  }

  /** The sweep's visit of batch `i`: finalize it if it qualifies. `ids(i)` is the fresh template id. */
  function Step(snap: AppState, acc: AppState, i: nat, now: int, ids: int -> string): AppState
    requires i < |snap.batches|
  {
    if Qualifies(snap, snap.batches[i], now) then FinalizeFrom(snap, acc, snap.batches[i].id, ids(i)) else acc
  }

  /** The sweep from batch `i` on, with the updates of the earlier visits in `acc`. */
  function SweepFrom(snap: AppState, acc: AppState, i: nat, now: int, ids: int -> string): AppState
    requires i <= |snap.batches|
    decreases |snap.batches| - i
  {
    if i == |snap.batches| then acc
    else SweepFrom(snap, Step(snap, acc, i, now, ids), i + 1, now, ids)
  }

  /** `checkAutoFinalize` as a function of the state it reads. */
  function AutoFinalize(s: AppState, now: int, ids: int -> string): AppState {
    SweepFrom(s, s, 0, now, ids)
  }

  /** `checkAutoFinalize`: the `forEach` over the batches of the state. */
  method CheckAutoFinalize(s: AppState, now: int, ids: int -> string) returns (r: AppState)
    ensures r == AutoFinalize(s, now, ids)
  {
    r := s;
    var i := 0;
    while i < |s.batches|
      invariant 0 <= i <= |s.batches|
      invariant SweepFrom(s, r, i, now, ids) == AutoFinalize(s, now, ids)
    {
      r := Step(s, r, i, now, ids);
      i := i + 1;
    }
  }

  /** Visiting batch `i` captures a template: it qualifies and the batch found under its id has a name. */
  predicate Effective(snap: AppState, i: nat, now: int)
    requires i < |snap.batches|
  {
    && Qualifies(snap, snap.batches[i], now)
    && FindBatch(snap.batches, snap.batches[i].id).Some?
    && Truthy(FindBatch(snap.batches, snap.batches[i].id).value.templateName)
  }

  /** Some visit from `i` on captures a template under the id of batch `k`, stopping its recording. */
  ghost predicate StoppedFrom(snap: AppState, i: nat, k: nat, now: int)
    requires k < |snap.batches|
  {
    exists j :: i <= j < |snap.batches| && Effective(snap, j, now) && snap.batches[j].id == snap.batches[k].id
  }

  /** The template visit `i` appends: one for an effective visit, none otherwise. */
  function Captured(snap: AppState, i: nat, now: int, ids: int -> string): seq<Template>
    requires i < |snap.batches|
  {
    if Effective(snap, i, now)
    then var b := FindBatch(snap.batches, snap.batches[i].id).value;
         [Template(ids(i), b.templateName.value, b.schedule)]
    else []
  }

  /** The templates the visits from `i` on append, in batch order. */
  function NewTemplates(snap: AppState, i: nat, now: int, ids: int -> string): seq<Template>
    requires i <= |snap.batches|
    decreases |snap.batches| - i
  {
    if i == |snap.batches| then [] else Captured(snap, i, now, ids) + NewTemplates(snap, i + 1, now, ids)
  }

  predicate SameIds(a: seq<Batch>, b: seq<Batch>) {
    |a| == |b| && forall k :: 0 <= k < |a| ==> a[k].id == b[k].id
  }

  /** One visit appends the template it captures and keeps the download directory. */
  lemma StepTemplates(snap: AppState, acc: AppState, i: nat, now: int, ids: int -> string)
    requires i < |snap.batches|
    ensures Step(snap, acc, i, now, ids).downloadDirectory == acc.downloadDirectory
    ensures Step(snap, acc, i, now, ids).templates == acc.templates + Captured(snap, i, now, ids)
  {
    if Qualifies(snap, snap.batches[i], now) {
      assert FindBatch(snap.batches, snap.batches[i].id).Some?;
    }
  }

  /** One visit clears `isRecording` on the batches carrying the visited id, if it is effective. */
  lemma StepBatches(snap: AppState, acc: AppState, i: nat, now: int, ids: int -> string)
    requires i < |snap.batches| && SameIds(acc.batches, snap.batches)
    ensures var next := Step(snap, acc, i, now, ids);
      SameIds(next.batches, snap.batches) &&
      forall k :: 0 <= k < |acc.batches| ==>
        next.batches[k] == if Effective(snap, i, now) && snap.batches[k].id == snap.batches[i].id
                           then acc.batches[k].(isRecording := false) else acc.batches[k]
  {
    if Qualifies(snap, snap.batches[i], now) {
      assert FindBatch(snap.batches, snap.batches[i].id).Some?;
    }
  }

  lemma StoppedFromStep(snap: AppState, i: nat, k: nat, now: int)
    requires i < |snap.batches| && k < |snap.batches|
    ensures StoppedFrom(snap, i, k, now) <==>
      (Effective(snap, i, now) && snap.batches[i].id == snap.batches[k].id) || StoppedFrom(snap, i + 1, k, now)
  {
    if StoppedFrom(snap, i, k, now) {
      var j :| i <= j < |snap.batches| && Effective(snap, j, now) && snap.batches[j].id == snap.batches[k].id;
      if j != i { assert StoppedFrom(snap, i + 1, k, now); }
    }
  }

  /** The sweep from `i` on appends the templates of the effective visits, in batch order. */
  lemma {:induction false} SweepFromTemplates(snap: AppState, acc: AppState, i: nat, now: int, ids: int -> string)
    requires i <= |snap.batches|
    ensures SweepFrom(snap, acc, i, now, ids).templates == acc.templates + NewTemplates(snap, i, now, ids)
    decreases |snap.batches| - i
  {
    if i < |snap.batches| {
      var next := Step(snap, acc, i, now, ids);
      StepTemplates(snap, acc, i, now, ids);
      assert SweepFrom(snap, acc, i, now, ids) == SweepFrom(snap, next, i + 1, now, ids);
      SweepFromTemplates(snap, next, i + 1, now, ids);
      var c, rest := Captured(snap, i, now, ids), NewTemplates(snap, i + 1, now, ids);
      assert NewTemplates(snap, i, now, ids) == c + rest;
      assert acc.templates + c + rest == acc.templates + (c + rest);
    }
  }

  /** The sweep never changes the download directory. */
  lemma {:induction false} SweepFromDirectory(snap: AppState, acc: AppState, i: nat, now: int, ids: int -> string)
    requires i <= |snap.batches|
    ensures SweepFrom(snap, acc, i, now, ids).downloadDirectory == acc.downloadDirectory
    decreases |snap.batches| - i
  {
    if i < |snap.batches| {
      StepTemplates(snap, acc, i, now, ids);
      SweepFromDirectory(snap, Step(snap, acc, i, now, ids), i + 1, now, ids);
    }
  }

  /** The sweep from `i` on clears `isRecording` on the batches whose id an effective visit names,
      and changes no other field of any batch. */
  lemma {:induction false} SweepFromBatches(snap: AppState, acc: AppState, i: nat, now: int, ids: int -> string)
    requires i <= |snap.batches|
    requires SameIds(acc.batches, snap.batches)
    ensures var r := SweepFrom(snap, acc, i, now, ids);
      |r.batches| == |acc.batches| &&
      forall k :: 0 <= k < |acc.batches| ==>
        r.batches[k] == acc.batches[k].(isRecording := acc.batches[k].isRecording && !StoppedFrom(snap, i, k, now))
    decreases |snap.batches| - i
  {
    if i == |snap.batches| {
      forall k | 0 <= k < |acc.batches|
        ensures acc.batches[k] == acc.batches[k].(isRecording := acc.batches[k].isRecording && !StoppedFrom(snap, i, k, now))
      {
        assert !StoppedFrom(snap, i, k, now);
      }
    } else {
      var next := Step(snap, acc, i, now, ids);
      StepBatches(snap, acc, i, now, ids);
      SweepFromBatches(snap, next, i + 1, now, ids);
      var r := SweepFrom(snap, next, i + 1, now, ids);
      forall k | 0 <= k < |acc.batches|
        ensures r.batches[k] == acc.batches[k].(isRecording := acc.batches[k].isRecording && !StoppedFrom(snap, i, k, now))
      {
        StoppedFromStep(snap, i, k, now);
      }
    }
  }

  /** The sweep appends templates and only ever clears `isRecording`; it never changes anything else. */
  lemma AutoFinalizeShape(s: AppState, now: int, ids: int -> string)
    ensures var r := AutoFinalize(s, now, ids);
      r.downloadDirectory == s.downloadDirectory &&
      r.templates == s.templates + NewTemplates(s, 0, now, ids) &&
      |r.batches| == |s.batches| &&
      forall k :: 0 <= k < |s.batches| ==>
        r.batches[k] == s.batches[k].(isRecording := s.batches[k].isRecording && !StoppedFrom(s, 0, k, now))
  {
    SweepFromTemplates(s, s, 0, now, ids);
    SweepFromDirectory(s, s, 0, now, ids);
    SweepFromBatches(s, s, 0, now, ids);
  }

  /** Every template the visits append is named and founded on a batch that qualifies. */
  lemma {:induction false} NewTemplatesQualify(snap: AppState, i: nat, now: int, ids: int -> string, n: int)
    requires i <= |snap.batches| && 0 <= n < |NewTemplates(snap, i, now, ids)|
    ensures exists j :: (i <= j < |snap.batches| && Effective(snap, j, now) &&
      NewTemplates(snap, i, now, ids)[n] == Captured(snap, j, now, ids)[0])
    decreases |snap.batches| - i
  {
    var c, rest := Captured(snap, i, now, ids), NewTemplates(snap, i + 1, now, ids);
    assert NewTemplates(snap, i, now, ids) == c + rest;
    if n < |c| {
      assert Effective(snap, i, now) && NewTemplates(snap, i, now, ids)[n] == c[0];
    } else {
      assert NewTemplates(snap, i, now, ids)[n] == rest[n - |c|];
      NewTemplatesQualify(snap, i + 1, now, ids, n - |c|);
      var j :| i + 1 <= j < |snap.batches| && Effective(snap, j, now) && rest[n - |c|] == Captured(snap, j, now, ids)[0];
      assert i <= j;
    }
  }

  /** With distinct batch ids the sweep finalizes exactly the batches that qualify: recording, on
      day 14 or later, with a non-blank template name that no existing template carries. Each one
      stops recording and gets a template with its name and its schedule, in batch order. */
  lemma AutoFinalizeDistinctIds(s: AppState, now: int, ids: int -> string)
    requires UniqueBatchIds(s.batches)
    ensures var r := AutoFinalize(s, now, ids);
      |r.batches| == |s.batches| &&
      forall k :: 0 <= k < |s.batches| ==>
        r.batches[k] == s.batches[k].(isRecording := s.batches[k].isRecording && !Qualifies(s, s.batches[k], now))
    ensures AutoFinalize(s, now, ids).templates == s.templates + QualifyingTemplates(s, 0, now, ids)
  {
    AutoFinalizeShape(s, now, ids);
    forall j | 0 <= j < |s.batches| ensures FindBatch(s.batches, s.batches[j].id) == Some(s.batches[j]) {
      FindUnique(s.batches, j);
    }
    forall k | 0 <= k < |s.batches| ensures StoppedFrom(s, 0, k, now) <==> Qualifies(s, s.batches[k], now) {
      if StoppedFrom(s, 0, k, now) {
        var j :| 0 <= j < |s.batches| && Effective(s, j, now) && s.batches[j].id == s.batches[k].id;
        assert j == k;
      }
      if Qualifies(s, s.batches[k], now) {
        assert Effective(s, k, now);
      }
    }
    NewTemplatesDistinct(s, 0, now, ids);
  }

  /** The templates of the qualifying batches from `i` on, in batch order. */
  function QualifyingTemplates(s: AppState, i: nat, now: int, ids: int -> string): seq<Template>
    requires i <= |s.batches|
    decreases |s.batches| - i
  {
    if i == |s.batches| then []
    else
      (if Qualifies(s, s.batches[i], now)
       then [Template(ids(i), s.batches[i].templateName.value, s.batches[i].schedule)] else [])
      + QualifyingTemplates(s, i + 1, now, ids)
  }

  /** Both qualifying checks are made against the state before the sweep, so two recording batches
      that share a template name both pass in the same sweep and the name is captured twice. */
  lemma SameNameCapturedTwice(s: AppState, now: int, ids: int -> string)
    requires |s.batches| == 2 && s.batches[0].id != s.batches[1].id
    requires Qualifies(s, s.batches[0], now) && Qualifies(s, s.batches[1], now)
    requires s.batches[0].templateName == s.batches[1].templateName
    ensures var r := AutoFinalize(s, now, ids);
      |r.templates| == |s.templates| + 2 &&
      r.templates[|s.templates|].name == r.templates[|s.templates| + 1].name == s.batches[0].templateName.value
  {
    AutoFinalizeDistinctIds(s, now, ids);
    assert QualifyingTemplates(s, 2, now, ids) == [];
    assert QualifyingTemplates(s, 1, now, ids) ==
      [Template(ids(1), s.batches[1].templateName.value, s.batches[1].schedule)];
  }

  lemma {:induction false} NewTemplatesDistinct(s: AppState, i: nat, now: int, ids: int -> string)
    requires i <= |s.batches|
    requires forall j :: 0 <= j < |s.batches| ==> FindBatch(s.batches, s.batches[j].id) == Some(s.batches[j])
    ensures NewTemplates(s, i, now, ids) == QualifyingTemplates(s, i, now, ids)
    decreases |s.batches| - i
  {
    if i < |s.batches| {
      assert FindBatch(s.batches, s.batches[i].id) == Some(s.batches[i]);
      assert Effective(s, i, now) <==> Qualifies(s, s.batches[i], now);
      assert Captured(s, i, now, ids) ==
        if Qualifies(s, s.batches[i], now)
        then [Template(ids(i), s.batches[i].templateName.value, s.batches[i].schedule)] else [];
      NewTemplatesDistinct(s, i + 1, now, ids);
    }
  }

  lemma FindUnique(batches: seq<Batch>, j: int)
    requires UniqueBatchIds(batches) && 0 <= j < |batches|
    ensures FindBatch(batches, batches[j].id) == Some(batches[j])
  {
    var found := FindBatch(batches, batches[j].id);
    var i :| 0 <= i < |batches| && batches[i] == found.value &&
      forall m :: 0 <= m < i ==> batches[m].id != batches[j].id;
    assert i == j;
  }

  /** When no batch qualifies, the sweep changes nothing; in particular a template that already
      carries a batch's name suppresses that batch's finalization. */
  lemma {:induction false} SweepNoOp(snap: AppState, acc: AppState, i: nat, now: int, ids: int -> string)
    requires i <= |snap.batches|
    requires forall j :: i <= j < |snap.batches| ==> !Qualifies(snap, snap.batches[j], now)
    ensures SweepFrom(snap, acc, i, now, ids) == acc
    decreases |snap.batches| - i
  {
    if i < |snap.batches| {
      SweepNoOp(snap, acc, i + 1, now, ids);
    }
  }

  /** A second sweep at the same moment changes nothing: no template is added twice. */
  lemma AutoFinalizeIdempotent(s: AppState, now: int, ids: int -> string, ids2: int -> string)
    ensures var once := AutoFinalize(s, now, ids); AutoFinalize(once, now, ids2) == once
  {
    var once := AutoFinalize(s, now, ids);
    AutoFinalizeShape(s, now, ids);
    forall k | 0 <= k < |once.batches| ensures !Effective(once, k, now) {
      NotEffectiveAgain(s, once, now, k);
    }
    SweepNoEffect(once, once, 0, now, ids2);
  }

  /** In a state `t` the sweep of `s` produced, no visit captures a template again: a batch that
      still records was not captured, so the batch its id finds in `s` has no name. */
  lemma NotEffectiveAgain(s: AppState, t: AppState, now: int, k: nat)
    requires 0 <= k < |s.batches| && SameIds(t.batches, s.batches)
    requires |s.templates| <= |t.templates| && t.templates[..|s.templates|] == s.templates
    requires forall m :: 0 <= m < |s.batches| ==>
      t.batches[m] == s.batches[m].(isRecording := s.batches[m].isRecording && !StoppedFrom(s, 0, m, now))
    ensures !Effective(t, k, now)
  {
    var b, b' := s.batches[k], t.batches[k];
    if Qualifies(t, b', now) {
      assert Qualifies(s, b, now);
      var found := FindBatch(s.batches, b.id).value;
      var f :| 0 <= f < |s.batches| && s.batches[f] == found &&
        forall j :: 0 <= j < f ==> s.batches[j].id != b.id;
      FindSameIds(s.batches, t.batches, b.id, f);
      assert t.batches[f].templateName == found.templateName;
    }
  }

  /** If a lookup finds index `f` first in `a`, it finds the same index in a list with the same ids. */
  lemma FindSameIds(a: seq<Batch>, b: seq<Batch>, id: string, f: int)
    requires SameIds(a, b) && 0 <= f < |a| && a[f].id == id
    requires forall j :: 0 <= j < f ==> a[j].id != id
    ensures FindBatch(b, id) == Some(b[f])
  {
    var found := FindBatch(b, id);
    assert found.Some?;
    var g :| 0 <= g < |b| && b[g] == found.value && forall j :: 0 <= j < g ==> b[j].id != id;
  }

  /** A sweep whose every qualifying visit finds a nameless batch changes nothing. */
  lemma {:induction false} SweepNoEffect(snap: AppState, acc: AppState, i: nat, now: int, ids: int -> string)
    requires i <= |snap.batches|
    requires forall j :: i <= j < |snap.batches| ==> !Effective(snap, j, now)
    ensures SweepFrom(snap, acc, i, now, ids) == acc
    decreases |snap.batches| - i
  {
    if i < |snap.batches| {
      assert !Effective(snap, i, now);
      assert Step(snap, acc, i, now, ids) == acc;
      SweepNoEffect(snap, acc, i + 1, now, ids);
    }
  }
}
