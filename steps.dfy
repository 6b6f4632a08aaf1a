/**
 * The workflow bar: six steps, each marked done from the keys of the
 * snapshot, and the first step not done marked active.
 */
module Steps {
  import opened Wrappers
  import opened Snapshot
  import opened Dom

  predicate HasPreview(s: Option<Snap>) {
    s.Some? && s.value.preview.Some? && s.value.preview.value.info.Some?
  }

  /** A sample always carries its column list, which is truthy even when empty. */
  predicate HasSample(s: Option<Snap>) {
    s.Some? && s.value.sample.Some?
  }

  predicate HasPreprocess(s: Option<Snap>) {
    s.Some? && s.value.preprocess.Some? && s.value.preprocess.value.segment.Some?
  }

  predicate HasTrain(s: Option<Snap>) {
    s.Some? && s.value.train.Some? && s.value.train.value.loss.Some?
  }

  /** The done flag of each step: upload, data info, preprocessing, model choice, training, export. */
  function Done(s: Option<Snap>): (d: seq<bool>)
    ensures |d| == 6 && !d[5]
  {
    [HasPreview(s),
     HasPreview(s) || HasSample(s),
     HasPreprocess(s),
     HasSample(s) || HasPreprocess(s) || HasTrain(s),
     HasTrain(s),
     false]
  }

  /** `done.findIndex(v => !v)`: the first flag that is false, or -1. */
  function ActiveIndex(d: seq<bool>): (i: int)
    ensures -1 <= i < |d|
    ensures i >= 0 ==> !d[i] && forall k :: 0 <= k < i ==> d[k]
    ensures i == -1 ==> forall k :: 0 <= k < |d| ==> d[k]
  {
    if d == [] then -1
    else if !d[0] then 0
    else
      var j := ActiveIndex(d[1..]);
      if j == -1 then -1 else j + 1
  }

  /** Flag 5 is never set, so there is always an active step, and it is at most 5. */
  lemma ActiveAlwaysExists(s: Option<Snap>)
    ensures 0 <= ActiveIndex(Done(s)) <= 5
  {
  }

  /** The flags the bar derives from each other: info after upload, model choice after preprocessing or training. */
  lemma FlagImplications(s: Option<Snap>)
    ensures Done(s)[0] ==> Done(s)[1]
    ensures Done(s)[2] || Done(s)[4] ==> Done(s)[3]
  {
  }

  /** No snapshot, or `{}`, marks nothing done and the first step active. */
  lemma NothingDone(s: Option<Snap>)
    requires s.None? || s.value == Empty
    ensures Done(s) == [false, false, false, false, false, false]
    ensures ActiveIndex(Done(s)) == 0
  {
  }

  const StepDone: string := "step-done"
  const StepActive: string := "step-active"

  /** The class list of step i after the update. */
  function StepClasses(before: set<string>, d: seq<bool>, i: int): set<string> {
    (before - {StepDone, StepActive})
    + (if 0 <= i < |d| && d[i] then {StepDone} else {})
    + (if i == ActiveIndex(d) then {StepActive} else {})
  }

  /** The class lists of all steps after an update with flags d. */
  function Marked(steps: seq<set<string>>, d: seq<bool>): (r: seq<set<string>>)
    ensures |r| == |steps|
  {
    seq(|steps|, i requires 0 <= i < |steps| => StepClasses(steps[i], d, i))
  }

  /**
   * After an update, exactly the done steps carry `step-done`, only the
   * active index can carry `step-active`, and every other class is kept.
   */
  lemma MarkedClasses(steps: seq<set<string>>, d: seq<bool>)
    ensures forall i :: 0 <= i < |steps| ==> (StepDone in Marked(steps, d)[i] <==> i < |d| && d[i])
    ensures forall i :: 0 <= i < |steps| ==> (StepActive in Marked(steps, d)[i] <==> i == ActiveIndex(d))
    ensures forall i, j :: 0 <= i < j < |steps| ==> !(StepActive in Marked(steps, d)[i] && StepActive in Marked(steps, d)[j])
    ensures forall i, c :: 0 <= i < |steps| && c != StepDone && c != StepActive ==>
              (c in Marked(steps, d)[i] <==> c in steps[i])
  {
  }

  /** With no step elements there is nothing to mark. */
  lemma NoSteps(d: seq<bool>)
    ensures Marked([], d) == []
  {
  }

  /** updateSteps(snap): every step's classes as Marked gives them; nothing else changes. */
  function StepsMarked(st: PageState, snap: Option<Snap>): PageState {
    st.(steps := Marked(st.steps, Done(snap)))
  }

  /**
   * updateSteps(snap): clear both classes on every step, mark the done ones,
   * then the active one.
   */
  method UpdateSteps(page: Page, snap: Option<Snap>)
    modifies page
    ensures page.State() == StepsMarked(old(page.State()), snap)
  {
    if |page.steps| == 0 {
      return;
    }
    var done := Done(snap);
    ghost var before := page.steps;
    ClearMarks(page);
    MarkDone(page, done);
    ghost var marked := page.steps;
    var active := ActiveIndex(done);
    if active >= 0 && active < |page.steps| {
      page.steps := page.steps[active := page.steps[active] + {StepActive}];
    }
    ActiveMarked(before, done, marked, page.steps);
  }

  /** The first pass over the step items: drop both the done and the active class from each. */
  method ClearMarks(page: Page)
    modifies page
    ensures |page.steps| == |old(page.steps)|
    ensures forall k :: 0 <= k < |page.steps| ==> page.steps[k] == old(page.steps[k]) - {StepDone, StepActive}
    ensures page.State() == old(page.State()).(steps := page.steps)
  {
    ghost var before := page.steps;
    var i := 0;
    while i < |page.steps|
      invariant 0 <= i <= |page.steps| == |before|
      invariant forall k :: 0 <= k < i ==> page.steps[k] == before[k] - {StepDone, StepActive}
      invariant forall k :: i <= k < |before| ==> page.steps[k] == before[k]
      invariant page.State() == old(page.State()).(steps := page.steps)
    {
      page.steps := page.steps[i := page.steps[i] - {StepDone, StepActive}];
      i := i + 1;
    }
  }

  /** The second pass: add the done class to each existing step whose flag is set. */
  method MarkDone(page: Page, done: seq<bool>)
    modifies page
    ensures |page.steps| == |old(page.steps)|
    ensures forall k :: 0 <= k < |page.steps| ==>
              page.steps[k] == old(page.steps[k]) + (if k < |done| && done[k] then {StepDone} else {})
    ensures page.State() == old(page.State()).(steps := page.steps)
  {
    ghost var before := page.steps;
    var i := 0;
    while i < |done|
      invariant 0 <= i <= |done| && |page.steps| == |before|
      invariant forall k :: 0 <= k < |before| ==>
                  page.steps[k] == before[k] + (if k < i && done[k] then {StepDone} else {})
      invariant page.State() == old(page.State()).(steps := page.steps)
    {
      if i < |page.steps| && done[i] {
        page.steps := page.steps[i := page.steps[i] + {StepDone}];
      }
      i := i + 1;
    }
  }

  /** Adding `step-active` at the active index to the cleared and done-marked steps gives the marked steps. */
  lemma ActiveMarked(before: seq<set<string>>, d: seq<bool>, marked: seq<set<string>>, final: seq<set<string>>)
    requires |marked| == |before|
    requires forall k :: 0 <= k < |before| ==>
               marked[k] == (before[k] - {StepDone, StepActive}) + (if k < |d| && d[k] then {StepDone} else {})
    requires var a := ActiveIndex(d);
             final == if 0 <= a < |marked| then marked[a := marked[a] + {StepActive}] else marked
    ensures final == Marked(before, d)
  {
    var a := ActiveIndex(d);
    forall k | 0 <= k < |before|
      ensures final[k] == StepClasses(before[k], d, k)
    {
      assert final[k] == if k == a then marked[k] + {StepActive} else marked[k];
      ClassesAt(before[k], d, k, marked[k], final[k]);
    }
  }

  /** One step: clearing, marking done and then marking active give its classes. */
  lemma ClassesAt(b: set<string>, d: seq<bool>, k: nat, m: set<string>, f: set<string>)
    requires m == (b - {StepDone, StepActive}) + (if k < |d| && d[k] then {StepDone} else {})
    requires f == if k == ActiveIndex(d) then m + {StepActive} else m
    ensures f == StepClasses(b, d, k)
  {
  }
}
