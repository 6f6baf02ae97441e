/** The image uploader's session: the picked file, its object-URL preview,
    the simulated progress counter and the busy flag, driven by discrete
    events. The React hooks are one immutable `State`; the upload's
    `setInterval`/`setTimeout` pair becomes the `Tick` and `Fire` events;
    `URL.createObjectURL` hands out fresh abstract tokens and the state keeps
    the set of tokens not yet revoked. */
module Uploader {
  import opened Types

  /** The size gate: 5 MiB, inclusive. */
  const MaxFileBytes: nat := 5 * 1024 * 1024

  /** The fixed uploader identity the completion callback reports. */
  const UploaderName: string := "You"
  const UploaderPhoto: string := "https://i.pravatar.cc/40?u=you"

  const TooLargeToast: Effect := Toast("File too large", true)
  const SuccessToast: Effect := Toast("Upload successful!", false)

  /** A browser `File`, as far as the uploader reads it. */
  datatype File = File(name: string, size: nat)

  /** What `onImageUploaded` receives: an image record without `id`,
      `createdAt`, `userId` and `aiHint`. */
  datatype UploadedImage = UploadedImage(url: Url, userName: string, userPhotoUrl: string)

  /** Observable side effects of one event: a toast, or a call of the
      parent's `onImageUploaded`. */
  datatype Effect = Toast(title: string, destructive: bool) | ImageUploaded(image: UploadedImage)

  /** The four hooks, the armed completion timer together with the preview
      token its closure captured, and the object-URL registry: `live` holds
      every created token not yet revoked, `handedOff` every token passed to
      the parent, `nextUrl` the next fresh token. */
  datatype State = State(
    file: Option<File>,
    previewUrl: Option<nat>,
    uploadProgress: Option<int>,
    isUploading: bool,
    timer: Option<nat>,
    live: set<nat>,
    handedOff: set<nat>,
    nextUrl: nat)

  datatype Outcome = Outcome(state: State, effects: seq<Effect>)

  /** All hooks at their `useState` initial values; no URL created yet. */
  const Initial: State := State(None, None, None, false, None, {}, {}, 0)

  function PreviewSet(s: State): set<nat> {
    if s.previewUrl.Some? then {s.previewUrl.value} else {}
  }

  predicate TooLarge(f: File) {
    f.size > MaxFileBytes
  }

  /** The uploads reported to the parent among some effects. */
  function Uploads(effects: seq<Effect>): seq<UploadedImage> {
    if |effects| == 0 then []
    else (if effects[0].ImageUploaded? then [effects[0].image] else []) + Uploads(effects[1..])
  }

  // ---------------------------------------------------------------------
  // Handlers, one per callback of the component.

  /** `handleFileChange` and `onDrop`: nothing picked is ignored; a file over
      the gate only raises the "too large" toast; otherwise the file is
      taken, the previous preview revoked and a fresh preview created. */
  function SelectFile(s: State, picked: Option<File>): (o: Outcome)
    ensures picked.None? ==> o == Outcome(s, [])
    ensures picked.Some? && TooLarge(picked.value) ==> o == Outcome(s, [TooLargeToast])
    ensures picked.Some? && !TooLarge(picked.value) ==>
      && o.effects == []
      && o.state.file == picked
      && o.state.previewUrl.Some?
      && o.state.previewUrl.value >= s.nextUrl
      && o.state.previewUrl.value < o.state.nextUrl
      && o.state.live == (s.live - PreviewSet(s)) + PreviewSet(o.state)
      && o.state.uploadProgress == s.uploadProgress
      && o.state.isUploading == s.isUploading
      && o.state.timer == s.timer
      && o.state.handedOff == s.handedOff
  {
    if picked.None? then Outcome(s, [])
    else if TooLarge(picked.value) then Outcome(s, [TooLargeToast])
    else
      var url := s.nextUrl;
      Outcome(s.(file := picked, previewUrl := Some(url),
                 live := (s.live - PreviewSet(s)) + {url}, nextUrl := url + 1), [])
  }

  /** `clearSelection`: revoke the preview, if any, and drop file and preview. */
  function ClearSelection(s: State): (o: Outcome)
    ensures o.effects == []
    ensures o.state.file.None? && o.state.previewUrl.None?
    ensures o.state.live == s.live - PreviewSet(s)
    ensures s.previewUrl.Some? ==> s.previewUrl.value !in o.state.live
    ensures o.state.isUploading == s.isUploading && o.state.timer == s.timer
    ensures o.state.uploadProgress == s.uploadProgress && o.state.handedOff == s.handedOff
  {
    Outcome(s.(file := None, previewUrl := None, live := s.live - PreviewSet(s)), [])
  }

  /** The upload button is enabled only with a file and no upload running. */
  predicate UploadEnabled(s: State) {
    s.file.Some? && !s.isUploading
  }

  /** `handleUpload`: without both file and preview it does nothing;
      otherwise it marks the session busy at progress 0 and arms the timer,
      whose closure captures the current preview. Its only caller is the
      upload button, which is disabled while an upload runs. */
  function HandleUpload(s: State): (o: Outcome)
    requires !s.isUploading
    ensures o.effects == []
    ensures s.file.None? || s.previewUrl.None? ==> o.state == s
    ensures s.file.Some? && s.previewUrl.Some? ==>
      && o.state.isUploading
      && o.state.uploadProgress == Some(0)
      && o.state.timer == s.previewUrl
      && o.state.file == s.file && o.state.previewUrl == s.previewUrl
      && o.state.live == s.live && o.state.handedOff == s.handedOff
  {
    if s.file.None? || s.previewUrl.None? then Outcome(s, [])
    else Outcome(s.(isUploading := true, uploadProgress := Some(0), timer := s.previewUrl), [])
  }

  /** The values the progress counter takes from 0 under the updater:
      the multiples of ten up to 90, then 95. */
  predicate ProgressValue(p: int) {
    (0 <= p <= 90 && p % 10 == 0) || p == 95
  }

  /** The interval's progress updater. */
  function NextProgress(prev: Option<int>): (next: int)
    ensures prev.None? ==> next == 10
    ensures prev.Some? && ProgressValue(prev.value) ==> ProgressValue(next) && prev.value <= next
    ensures prev.Some? && prev.value < 90 ==> next == prev.value + 10
    ensures prev.Some? && prev.value >= 90 ==> next == 95
  {
    if prev.None? then 10
    else if prev.value >= 90 then 95
    else prev.value + 10
  }

  /** One interval tick: only the progress moves. */
  function Tick(s: State): (o: Outcome)
    ensures o.effects == []
    ensures o.state == s.(uploadProgress := o.state.uploadProgress)
    ensures o.state.uploadProgress.Some?
    ensures s.uploadProgress.Some? && ProgressValue(s.uploadProgress.value) ==>
      ProgressValue(o.state.uploadProgress.value) && s.uploadProgress.value <= o.state.uploadProgress.value
  {
    Outcome(s.(uploadProgress := Some(NextProgress(s.uploadProgress))), [])
  }

  /** The timeout's callback: report the captured preview to the parent as
      uploaded by "You", toast, and reset the session. The reported URL is
      deliberately not revoked. The progress is set to 100 and then to null
      in the same callback, so only null is observable. */
  function Complete(s: State): (o: Outcome)
    requires s.timer.Some?
    ensures Uploads(o.effects) == [UploadedImage(ObjectUrl(s.timer.value), UploaderName, UploaderPhoto)]
    ensures SuccessToast in o.effects
    ensures o.state.file.None? && o.state.previewUrl.None?
    ensures !o.state.isUploading && o.state.uploadProgress.None? && o.state.timer.None?
    ensures o.state.live == s.live
    ensures o.state.handedOff == s.handedOff + {s.timer.value}
  {
    var url := s.timer.value;
    var effects := [ImageUploaded(UploadedImage(ObjectUrl(url), UploaderName, UploaderPhoto)), SuccessToast];
    assert Uploads(effects[1..]) == [];
    Outcome(s.(file := None, previewUrl := None, isUploading := false,
               uploadProgress := None, timer := None,
               handedOff := s.handedOff + {url}), effects)
  }

  // ---------------------------------------------------------------------
  // Events as the rendered component lets them happen.

  /** `Pick` and `Drop` reach the handlers only while the drop zone (with its
      hidden file input) is rendered, which is while there is no preview;
      `Clear` only while the preview and its remove button are shown; `Press`
      only while the upload button is enabled; `Tick` and `Fire` only while
      the timers are armed. */
  datatype Event = Pick(picked: Option<File>) | Drop(dropped: Option<File>) | Clear | Press | TickEvent | Fire

  /** The component as written. The remove button has no `disabled`, so a
      removal goes through while an upload runs. */
  function Step(s: State, e: Event): (o: Outcome)
    ensures (e.Pick? || e.Drop?) && s.previewUrl.Some? ==> o == Outcome(s, [])
    ensures e.Clear? && s.previewUrl.None? ==> o == Outcome(s, [])
    ensures e.Clear? && s.previewUrl.Some? ==>
      o.state.previewUrl.None? && o.state.isUploading == s.isUploading && o.state.timer == s.timer
    ensures e.Press? && !UploadEnabled(s) ==> o == Outcome(s, [])
    ensures (e.TickEvent? || e.Fire?) && s.timer.None? ==> o == Outcome(s, [])
    ensures e.Fire? && s.timer.Some? ==> !o.state.isUploading && o.state.timer.None?
  {
    match e
    case Pick(f) => if s.previewUrl.None? then SelectFile(s, f) else Outcome(s, [])
    case Drop(f) => if s.previewUrl.None? then SelectFile(s, f) else Outcome(s, [])
    case Clear => if s.previewUrl.Some? then ClearSelection(s) else Outcome(s, [])
    case Press => if UploadEnabled(s) then HandleUpload(s) else Outcome(s, [])
    case TickEvent => if s.timer.Some? then Tick(s) else Outcome(s, [])
    case Fire => if s.timer.Some? then Complete(s) else Outcome(s, [])
  }

  /** The component with its remove button disabled while uploading, as the
      upload button already is. */
  function GuardedStep(s: State, e: Event): (o: Outcome)
    ensures e.Clear? && s.isUploading ==> o == Outcome(s, [])
    ensures !(e.Clear? && s.isUploading) ==> o == Step(s, e)
    ensures s.isUploading && s.previewUrl.Some? && !e.Fire? ==> o.state.previewUrl == s.previewUrl
  {
    if e.Clear? && s.isUploading then Outcome(s, []) else Step(s, e)
  }

  /** The effects of a sequence of events, in order, and the final state,
      for a given step function. */
  function RunWith(step: (State, Event) -> Outcome, s: State, es: seq<Event>): Outcome
    decreases |es|
  {
    if |es| == 0 then Outcome(s, [])
    else
      var o := step(s, es[0]);
      var rest := RunWith(step, o.state, es[1..]);
      Outcome(rest.state, o.effects + rest.effects)
  }

  function Run(s: State, es: seq<Event>): Outcome {
    RunWith(Step, s, es)
  }

  /** The first event of a run, then the rest. */
  lemma RunUnfold(s: State, es: seq<Event>)
    requires |es| > 0
    ensures Run(s, es).state == Run(Step(s, es[0]).state, es[1..]).state
    ensures Run(s, es).effects == Step(s, es[0]).effects + Run(Step(s, es[0]).state, es[1..]).effects
  {
  }

  function GuardedRun(s: State, es: seq<Event>): State {
    RunWith(GuardedStep, s, es).state
  }

  // ---------------------------------------------------------------------
  // Invariants.

  /** What every reachable session satisfies: file and preview come and go
      together; busy, armed timer and visible progress coincide; progress
      stays in [0, 95]; the file respects the gate; every token mentioned
      was created. */
  predicate WellFormed(s: State) {
    && (s.file.Some? <==> s.previewUrl.Some?)
    && (s.isUploading <==> s.timer.Some?)
    && (s.isUploading <==> s.uploadProgress.Some?)
    && (s.uploadProgress.Some? ==> ProgressValue(s.uploadProgress.value))
    && (s.file.Some? ==> !TooLarge(s.file.value))
    && (s.previewUrl.Some? ==> s.previewUrl.value < s.nextUrl)
    && (s.timer.Some? ==> s.timer.value < s.nextUrl)
    && (forall t :: t in s.live ==> t < s.nextUrl)
    && (forall t :: t in s.handedOff ==> t < s.nextUrl)
  }

  /** Object-URL bookkeeping: the URLs not revoked are exactly the current
      preview and those handed to the parent, the preview is not one of the
      latter, and a running upload reports the preview still shown. */
  predicate UrlsAccounted(s: State) {
    && s.live == PreviewSet(s) + s.handedOff
    && (s.previewUrl.Some? ==> s.previewUrl.value !in s.handedOff)
    && (s.timer.Some? ==> s.timer == s.previewUrl)
  }

  /** The session the component mounts with meets both invariants. */
  lemma InitialAccounted()
    ensures WellFormed(Initial) && UrlsAccounted(Initial)
  {
  }

  /** Every event keeps a session well formed, emits at most one upload
      report, and emits one exactly when it fires an armed timer, reporting
      the preview captured at the press. */
  lemma StepKeepsWellFormed(s: State, e: Event)
    requires WellFormed(s)
    ensures WellFormed(Step(s, e).state)
    ensures s.isUploading && e.Fire? ==> !Step(s, e).state.isUploading
    ensures Uploads(Step(s, e).effects) ==
      if e.Fire? && s.timer.Some?
      then [UploadedImage(ObjectUrl(s.timer.value), UploaderName, UploaderPhoto)]
      else []
  {
  }

  lemma {:induction false} RunKeepsWellFormed(s: State, es: seq<Event>)
    requires WellFormed(s)
    ensures WellFormed(Run(s, es).state)
    decreases |es|
  {
    if |es| > 0 {
      StepKeepsWellFormed(s, es[0]);
      RunKeepsWellFormed(Step(s, es[0]).state, es[1..]);
    }
  }

  /** With the remove button disabled during an upload, the URL bookkeeping
      is kept by every event. */
  lemma GuardedStepKeepsUrlsAccounted(s: State, e: Event)
    requires WellFormed(s) && UrlsAccounted(s)
    ensures WellFormed(GuardedStep(s, e).state)
    ensures UrlsAccounted(GuardedStep(s, e).state)
  {
    StepKeepsWellFormed(s, e);
  }

  /** From any well-formed session whose URLs are accounted for (the initial
      one among them, by `InitialAccounted`), any sequence of events of the
      guarded component leaves every created URL either shown as the preview
      or held by the parent, and no URL the parent holds is ever revoked. */
  lemma {:induction false} GuardedRunKeepsUrlsAccounted(s: State, es: seq<Event>)
    requires WellFormed(s) && UrlsAccounted(s)
    ensures WellFormed(GuardedRun(s, es)) && UrlsAccounted(GuardedRun(s, es))
    ensures GuardedRun(s, es).handedOff <= GuardedRun(s, es).live
    decreases |es|
  {
    if |es| > 0 {
      GuardedStepKeepsUrlsAccounted(s, es[0]);
      GuardedRunKeepsUrlsAccounted(GuardedStep(s, es[0]).state, es[1..]);
    }
  }

  /** The as-written component breaks the bookkeeping: pick `f`, upload,
      remove the preview while the upload runs, pick `g`, let the timer fire.
      The parent receives `f`'s URL after it was revoked, and `g`'s URL is
      still live yet neither the preview nor handed off. */
  lemma ClearDuringUploadLeaks(f: File, g: File)
    requires !TooLarge(f) && !TooLarge(g)
    ensures var o := Run(Initial, [Pick(Some(f)), Press, Clear, Pick(Some(g)), Fire]);
      && WellFormed(o.state)
      && !UrlsAccounted(o.state)
      && Uploads(o.effects) == [UploadedImage(ObjectUrl(0), UploaderName, UploaderPhoto)]
      && 0 !in o.state.live
      && 1 in o.state.live && o.state.previewUrl.None? && 1 !in o.state.handedOff
  {
    var es := [Pick(Some(f)), Press, Clear, Pick(Some(g)), Fire];
    var o1 := Step(Initial, es[0]);
    var o2 := Step(o1.state, es[1]);
    var o3 := Step(o2.state, es[2]);
    var o4 := Step(o3.state, es[3]);
    var o5 := Step(o4.state, es[4]);
    assert o1.state.previewUrl == Some(0) && o1.state.live == {0};
    assert o2.state.timer == Some(0);
    assert o3.state.live == {} && o3.state.isUploading;
    assert o4.state.previewUrl == Some(1) && o4.state.live == {1};
    assert o5.state.live == {1} && o5.state.handedOff == {0};
    var t1, t2, t3, t4 := es[1..], es[1..][1..], es[1..][1..][1..], es[1..][1..][1..][1..];
    assert t1 == [Press, Clear, Pick(Some(g)), Fire] && t1[0] == Press;
    assert t2 == [Clear, Pick(Some(g)), Fire] && t2[0] == Clear;
    assert t3 == [Pick(Some(g)), Fire] && t3[0] == Pick(Some(g));
    assert t4 == [Fire] && t4[1..] == [];
    RunUnfold(o4.state, t4);
    RunUnfold(o3.state, t3);
    RunUnfold(o2.state, t2);
    RunUnfold(o1.state, t1);
    RunUnfold(Initial, es);
    assert Run(Initial, es).state == o5.state;
    RunKeepsWellFormed(Initial, es);
    UploadsAppendRun(Initial, es);
    StepKeepsWellFormed(Initial, es[0]);
    StepKeepsWellFormed(o1.state, es[1]);
    StepKeepsWellFormed(o2.state, es[2]);
    StepKeepsWellFormed(o3.state, es[3]);
    StepKeepsWellFormed(o4.state, es[4]);
    var report := UploadedImage(ObjectUrl(0), UploaderName, UploaderPhoto);
    assert StepUploads(o4.state, t4) == [report];
    assert StepUploads(o3.state, t3) == [report];
    assert StepUploads(o2.state, t2) == [report];
    assert StepUploads(o1.state, t1) == [report];
    assert StepUploads(Initial, es) == [report];
  }

  lemma {:induction false} UploadsAppend(a: seq<Effect>, b: seq<Effect>)
    ensures Uploads(a + b) == Uploads(a) + Uploads(b)
  {
    if |a| == 0 {
      assert a + b == b;
    } else {
      var head := if a[0].ImageUploaded? then [a[0].image] else [];
      assert (a + b)[0] == a[0];
      assert (a + b)[1..] == a[1..] + b;
      assert Uploads(a + b) == head + Uploads(a[1..] + b);
      UploadsAppend(a[1..], b);
      assert Uploads(a) == head + Uploads(a[1..]);
    }
  }

  /** The uploads a run reports are those of its steps, in order. */
  function StepUploads(s: State, es: seq<Event>): seq<UploadedImage>
    decreases |es|
  {
    if |es| == 0 then []
    else Uploads(Step(s, es[0]).effects) + StepUploads(Step(s, es[0]).state, es[1..])
  }

  lemma {:induction false} UploadsAppendRun(s: State, es: seq<Event>)
    ensures Uploads(Run(s, es).effects) == StepUploads(s, es)
    decreases |es|
  {
    if |es| > 0 {
      var o := Step(s, es[0]);
      UploadsAppend(o.effects, Run(o.state, es[1..]).effects);
      UploadsAppendRun(o.state, es[1..]);
    }
  }

  // ---------------------------------------------------------------------
  // The progress counter and one complete upload cycle.

  /** The counter after `n` interval ticks from `p`. */
  function TickN(p: int, n: nat): int
    decreases n
  {
    if n == 0 then p else TickN(NextProgress(Some(p)), n - 1)
  }

  lemma {:induction false} TickNFrom(j: nat, n: nat)
    requires j <= 9
    ensures TickN(10 * j, n) == if j + n <= 9 then 10 * (j + n) else 95
    decreases n
  {
    if n > 0 {
      if j < 9 {
        TickNFrom(j + 1, n - 1);
      } else {
        TickNAtCap(n - 1);
      }
    }
  }

  lemma {:induction false} TickNAtCap(n: nat)
    ensures TickN(95, n) == 95
    decreases n
  {
    if n > 0 {
      TickNAtCap(n - 1);
    }
  }

  /** From 0 the counter climbs by ten per tick, reaches 95 at the tenth
      tick and stays there. */
  lemma ProgressAfterTicks(n: nat)
    ensures TickN(0, n) == if n <= 9 then 10 * n else 95
    ensures n >= 10 ==> TickN(0, n) == 95
  {
    TickNFrom(0, n);
  }

  /** The counter never decreases from one tick to the next. */
  lemma {:induction false} TicksMonotone(p: int, n: nat)
    requires ProgressValue(p)
    ensures ProgressValue(TickN(p, n)) && p <= TickN(p, n) <= TickN(p, n + 1)
    decreases n
  {
    if n > 0 {
      TicksMonotone(NextProgress(Some(p)), n - 1);
    }
  }

  function Ticks(k: nat): (es: seq<Event>)
    ensures |es| == k && forall i :: 0 <= i < k ==> es[i] == TickEvent
  {
    if k == 0 then [] else [TickEvent] + Ticks(k - 1)
  }

  /** Running `a + b` is running `a`, then `b` from where `a` stopped. */
  lemma {:induction false} RunAppend(step: (State, Event) -> Outcome, s: State, a: seq<Event>, b: seq<Event>)
    ensures RunWith(step, s, a + b).state == RunWith(step, RunWith(step, s, a).state, b).state
    ensures RunWith(step, s, a + b).effects ==
      RunWith(step, s, a).effects + RunWith(step, RunWith(step, s, a).state, b).effects
    decreases |a|
  {
    if |a| == 0 {
      assert a + b == b;
    } else {
      var o := step(s, a[0]);
      var ab := a + b;
      assert ab[0] == a[0] && ab[1..] == a[1..] + b;
      RunAppend(step, o.state, a[1..], b);
      var mid := RunWith(step, o.state, a[1..]);
      var tail := RunWith(step, mid.state, b);
      assert o.effects + (mid.effects + tail.effects) == (o.effects + mid.effects) + tail.effects;
    }
  }

  /** While the timer is armed, `k` ticks advance only the counter. */
  lemma {:induction false} RunTicks(s: State, k: nat)
    requires s.timer.Some? && s.uploadProgress.Some?
    ensures Run(s, Ticks(k)).state == s.(uploadProgress := Some(TickN(s.uploadProgress.value, k)))
    ensures Run(s, Ticks(k)).effects == []
    decreases k
  {
    if k > 0 {
      var s' := Tick(s).state;
      assert Ticks(k)[1..] == Ticks(k - 1);
      RunTicks(s', k - 1);
    }
  }

  /** One upload from an idle session with a file: press, any number of
      ticks, then the timer fires. Meanwhile the counter reads as
      `TickN(0, k)`; afterwards the session is empty and idle again, exactly
      one upload of the pressed preview was reported, and no URL was
      revoked. */
  lemma UploadCycle(s: State, k: nat)
    requires WellFormed(s) && UploadEnabled(s)
    ensures var during := Run(s, [Press] + Ticks(k)).state;
      during.isUploading && during.uploadProgress == Some(TickN(0, k))
    ensures var o := Run(s, [Press] + Ticks(k) + [Fire]);
      && o.state.file.None? && o.state.previewUrl.None?
      && !o.state.isUploading && o.state.uploadProgress.None?
      && Uploads(o.effects) == [UploadedImage(ObjectUrl(s.previewUrl.value), UploaderName, UploaderPhoto)]
      && o.state.live == s.live
      && o.state.handedOff == s.handedOff + {s.previewUrl.value}
  {
    var pressed := Step(s, Press);
    assert Run(s, [Press]).state == pressed.state;
    assert Run(s, [Press]).effects == [];
    RunAppend(Step, s, [Press], Ticks(k));
    RunTicks(pressed.state, k);
    var during := Run(s, [Press] + Ticks(k));
    RunAppend(Step, s, [Press] + Ticks(k), [Fire]);
    var fired := Step(during.state, Fire);
    assert Run(during.state, [Fire]).state == fired.state;
    assert Run(during.state, [Fire]).effects == fired.effects;
    UploadsAppend(during.effects, fired.effects);
    assert Uploads(during.effects) == [] by {
      assert during.effects == [];
    }
  }

  /** The upload button does nothing while disabled (no file, or an upload
      running); enabled, it starts the upload at progress 0. */
  lemma PressOnlyWhenEnabled(s: State)
    requires WellFormed(s)
    ensures !UploadEnabled(s) ==> Step(s, Press) == Outcome(s, [])
    ensures UploadEnabled(s) ==>
      Step(s, Press).state.isUploading && Step(s, Press).state.uploadProgress == Some(0)
      && Step(s, Press).state.timer == s.previewUrl
  {
  }

  /** Picking by the file input and dropping onto the zone are the same
      transition. */
  lemma PickAndDropAgree(s: State, f: Option<File>)
    ensures Step(s, Pick(f)) == Step(s, Drop(f))
  {
  }

  /** A file over the gate, picked or dropped, changes nothing but raises
      the "too large" toast; a file of exactly 5 MiB is accepted. */
  lemma SizeGate(s: State, f: File)
    requires s.previewUrl.None?
    ensures f.size > 5 * 1024 * 1024 ==> Step(s, Pick(Some(f))) == Outcome(s, [TooLargeToast])
    ensures f.size == 5 * 1024 * 1024 ==> Step(s, Drop(Some(f))).state.file == Some(f)
  {
  }
}
