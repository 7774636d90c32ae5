/**
 The identity-verification page (Verification.tsx) as a state machine. The
 page keeps a step number and four flags; buttons fire the handlers, and which
 buttons exist and are enabled depends on the step and the flags. The
 three-second timer behind "Verify Identity" is the separate `CompleteVerify`
 event, which can only happen while a verification is in flight.
 */
module VerificationWizard {
  import opened Options

  /** The page state: `step` (1..4) and the flags, all as the page declares them. */
  datatype Wizard = Wizard(
    step: int,
    dlUploaded: bool,
    selfieUploaded: bool,
    isVerifying: bool,
    isVerified: bool)

  datatype Event =
    | Start           // "Start Verification" on step 1
    | UploadLicence   // `handleDLUpload`
    | UploadSelfie    // `handleSelfieUpload`
    | BeginVerify     // `handleVerify`, up to the timer
    | CompleteVerify  // the timer callback of `handleVerify`

  /** The page as first rendered. */
  const Initial: Wizard := Wizard(1, false, false, false, false)

  /**
   Whether the page offers the event: each button is rendered only on its
   step and the upload and verify buttons are disabled by their flags; the
   timer exists only after verification began.
   */
  predicate Enabled(w: Wizard, e: Event)
  {
    match e
    case Start => w.step == 1
    case UploadLicence => w.step == 2 && !w.dlUploaded
    case UploadSelfie => w.step == 2 && !w.selfieUploaded
    case BeginVerify => w.step == 3 && !w.isVerifying
    case CompleteVerify => w.isVerifying
  }

  /**
   The handler of each event, applied as written, whether or not the page
   would offer it. A licence upload moves to step 3 only when the selfie is
   already in, and a selfie upload only when the licence is.
   */
  function Apply(w: Wizard, e: Event): (r: Wizard)
    ensures e == Start ==> r == Wizard(2, w.dlUploaded, w.selfieUploaded, w.isVerifying, w.isVerified)
    ensures e == UploadLicence ==> r.step == (if w.selfieUploaded then 3 else w.step)
    ensures e == UploadSelfie ==> r.step == (if w.dlUploaded then 3 else w.step)
    ensures e == CompleteVerify ==> !r.isVerifying && r.isVerified && r.step == 4
    ensures e == BeginVerify ==> r.isVerifying && r.step == w.step
    ensures e != Start ==> r.dlUploaded == (w.dlUploaded || e == UploadLicence)
    ensures e != Start ==> r.selfieUploaded == (w.selfieUploaded || e == UploadSelfie)
    ensures e != BeginVerify && e != CompleteVerify ==> r.isVerifying == w.isVerifying
    ensures e != CompleteVerify ==> r.isVerified == w.isVerified
  {
    match e
    case Start => w.(step := 2)
    case UploadLicence => w.(dlUploaded := true, step := if w.selfieUploaded then 3 else w.step)
    case UploadSelfie => w.(selfieUploaded := true, step := if w.dlUploaded then 3 else w.step)
    case BeginVerify => w.(isVerifying := true)
    case CompleteVerify => w.(isVerifying := false, isVerified := true, step := 4)
  }

  /** The states the page can be in, step by step. */
  ghost predicate Inv(w: Wizard)
  {
    && 1 <= w.step <= 4
    && (w.step == 1 ==> !w.dlUploaded && !w.selfieUploaded)
    && (w.step == 2 ==> !(w.dlUploaded && w.selfieUploaded))
    && (w.step >= 3 ==> w.dlUploaded && w.selfieUploaded)
    && (w.isVerifying ==> w.step == 3)
    && (w.isVerified <==> w.step == 4)
  }

  /** Taking an offered event keeps the invariant and never moves the step backwards. */
  lemma StepPreservesInv(w: Wizard, e: Event)
    requires Inv(w) && Enabled(w, e)
    ensures Inv(Apply(w, e))
    ensures Apply(w, e).step >= w.step
  {
  }

  /**
   Runs the events in order, as long as the page offers each one; `None`
   when some event is not on offer at its turn.
   */
  function Run(w: Wizard, es: seq<Event>): Option<Wizard>
    decreases |es|
  {
    if es == [] then Some(w)
    else if !Enabled(w, es[0]) then None
    else Run(Apply(w, es[0]), es[1..])
  }

  /**
   Every state reached from the initial page keeps the invariant; in
   particular `isVerified` holds only on step 4. The step never decreases
   along the way.
   */
  lemma {:induction false} RunPreservesInv(w: Wizard, es: seq<Event>)
    requires Inv(w)
    ensures Run(w, es).Some? ==> Inv(Run(w, es).value) && Run(w, es).value.step >= w.step
    decreases |es|
  {
    if es != [] && Enabled(w, es[0]) {
      StepPreservesInv(w, es[0]);
      RunPreservesInv(Apply(w, es[0]), es[1..]);
    }
  }

  /** From the initial page, every reachable state is verified only on step 4. */
  lemma ReachableVerifiedIsFinalStep(es: seq<Event>)
    requires Run(Initial, es).Some?
    ensures Run(Initial, es).value.isVerified ==> Run(Initial, es).value.step == 4
    ensures 1 <= Run(Initial, es).value.step <= 4
  {
    RunPreservesInv(Initial, es);
  }

  /**
   The two uploads commute: from step 2 with neither upload done, uploading
   the licence then the selfie, or the selfie then the licence, reaches the
   same state, on step 3 with both flags set.
   */
  lemma UploadOrderIrrelevant(w: Wizard)
    requires w.step == 2 && !w.dlUploaded && !w.selfieUploaded
    ensures Run(w, [UploadLicence, UploadSelfie]) == Run(w, [UploadSelfie, UploadLicence])
    ensures Run(w, [UploadLicence, UploadSelfie]) == Some(w.(step := 3, dlUploaded := true, selfieUploaded := true))
  {
    assert [UploadLicence, UploadSelfie][1..] == [UploadSelfie];
    assert [UploadSelfie, UploadLicence][1..] == [UploadLicence];
  }

  /** A single upload leaves the page on step 2, waiting for the other one. */
  lemma SingleUploadStaysOnStep2(w: Wizard, e: Event)
    requires w.step == 2 && !w.dlUploaded && !w.selfieUploaded
    requires e == UploadLicence || e == UploadSelfie
    ensures Enabled(w, e)
    ensures Apply(w, e).step == 2
  {
  }

  /**
   Each upload happens at most once: once its flag is set, no run the page
   offers contains that upload again, and the flag stays set to the end.
   */
  lemma {:induction false} UploadsAreOneShot(w: Wizard, es: seq<Event>)
    requires Run(w, es).Some?
    ensures w.dlUploaded ==> UploadLicence !in es && Run(w, es).value.dlUploaded
    ensures w.selfieUploaded ==> UploadSelfie !in es && Run(w, es).value.selfieUploaded
    decreases |es|
  {
    if es != [] {
      UploadsAreOneShot(Apply(w, es[0]), es[1..]);
      assert es == [es[0]] + es[1..];
    }
  }

  /** The shortest full run: start, both uploads, begin and complete verification. */
  lemma HappyPath()
    ensures Run(Initial, [Start, UploadLicence, UploadSelfie, BeginVerify, CompleteVerify])
      == Some(Wizard(4, true, true, false, true))
  {
    var es := [Start, UploadLicence, UploadSelfie, BeginVerify, CompleteVerify];
    assert es[1..] == [UploadLicence, UploadSelfie, BeginVerify, CompleteVerify];
    assert es[1..][1..] == [UploadSelfie, BeginVerify, CompleteVerify];
    assert es[1..][1..][1..] == [BeginVerify, CompleteVerify];
    assert es[1..][1..][1..][1..] == [CompleteVerify];
  }

  /** One circle of the progress indicator. */
  datatype Circle = Circle(highlighted: bool, checked: bool)

  /** The four circles of the progress indicator for the current step: circle k is highlighted from step k on and checked once the page has moved past it. */
  function Progress(step: int): (cs: seq<Circle>)
    ensures |cs| == 4
    ensures forall i :: 0 <= i < 4 ==> (cs[i].highlighted <==> i + 1 <= step)
    ensures forall i :: 0 <= i < 4 ==> (cs[i].checked <==> i + 1 < step)
  {
    seq(4, i requires 0 <= i < 4 => Circle(i + 1 <= step, i + 1 < step))
  }

  function CountChecked(cs: seq<Circle>): (n: nat)
    ensures n <= |cs|
  {
    if cs == [] then 0 else (if cs[0].checked then 1 else 0) + CountChecked(cs[1..])
  }

  function CountHighlighted(cs: seq<Circle>): (n: nat)
    ensures n <= |cs|
  {
    if cs == [] then 0 else (if cs[0].highlighted then 1 else 0) + CountHighlighted(cs[1..])
  }

  /**
   On step `s` the indicator shows exactly `s` highlighted circles, of which
   the first `s - 1` carry a check mark; every checked circle is highlighted.
   */
  lemma ProgressCounts(s: int)
    requires 1 <= s <= 4
    ensures CountHighlighted(Progress(s)) == s
    ensures CountChecked(Progress(s)) == s - 1
    ensures forall k :: 0 <= k < 4 && Progress(s)[k].checked ==> Progress(s)[k].highlighted
  {
    var cs := Progress(s);
    var tail1, tail2, tail3 := cs[1..], cs[2..], cs[3..];
    assert tail1[1..] == tail2 && tail2[1..] == tail3 && tail3[1..] == [];
    assert CountHighlighted(tail3) == (if 4 <= s then 1 else 0);
    assert CountHighlighted(tail2) == (if 3 <= s then 1 else 0) + CountHighlighted(tail3);
    assert CountHighlighted(tail1) == (if 2 <= s then 1 else 0) + CountHighlighted(tail2);
    assert CountChecked(tail3) == (if 4 < s then 1 else 0);
    assert CountChecked(tail2) == (if 3 < s then 1 else 0) + CountChecked(tail3);
    assert CountChecked(tail1) == (if 2 < s then 1 else 0) + CountChecked(tail2);
  }
}
