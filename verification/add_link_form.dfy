/**
 The add-link dialog of AddSocialMediaModal.tsx as a state machine over its
 form state. Each handler is a pure function from the state before to the
 state after, together with the toast it shows. The one-second timer that
 stands in for the network call is the separate `Finish` event, which can
 only happen while a submission is pending.
 */
module AddLinkForm {
  import opened Options
  import opened Platforms
  import opened LinkValidation
  import Text

  /**
   The dialog's state: the picked platform value and the URL text ("" when
   empty), whether a submission is in flight, and whether the dialog is open
   (`open` is owned by the parent and changed through `onOpenChange`).
   */
  datatype Form = Form(platform: string, url: string, isSubmitting: bool, open: bool)

  /** The toasts the dialog raises. `InvalidUrl` carries the picker label found for the platform value, if any. */
  datatype Toast = MissingFields | InvalidUrl(platformLabel: Option<string>) | LinkAdded

  /** A handler's effect: the next form state and the toast shown, if any. */
  datatype Step = Step(form: Form, toast: Option<Toast>)

  /** The dialog as first opened: both fields empty, nothing in flight. A dialog reopened while a submission timer is pending still shows it submitting, since closing keeps `isSubmitting`. */
  const Opened: Form := Form("", "", false, true)

  /** True when the submission is accepted and the simulated request starts. */
  predicate Starts(f: Form, hostOf: HostParser)
  {
    f.platform != "" && f.url != "" && ValidateUrl(f.url, f.platform, hostOf)
  }

  /**
   `handleSubmit`. An empty platform or URL raises the missing-fields toast
   and nothing else; a URL rejected by `validateUrl` raises the invalid-URL
   toast and nothing else; otherwise `isSubmitting` is set and the fields are
   kept until the request finishes.
   */
  function Submit(f: Form, hostOf: HostParser): (r: Step)
    ensures r.form.platform == f.platform && r.form.url == f.url && r.form.open == f.open
    ensures (f.platform == "" || f.url == "") ==> r == Step(f, Some(MissingFields))
    ensures f.platform != "" && f.url != "" && !ValidateUrl(f.url, f.platform, hostOf) ==>
      r == Step(f, Some(InvalidUrl(LabelOf(f.platform))))
    ensures r.toast.None? <==> Starts(f, hostOf)
    ensures r.toast.None? ==> r.form.isSubmitting && ParseKey(f.platform).Some?
    ensures r.toast.Some? ==> r.form == f
  {
    if f.platform == "" || f.url == "" then
      Step(f, Some(MissingFields))
    else if !ValidateUrl(f.url, f.platform, hostOf) then
      Step(f, Some(InvalidUrl(LabelOf(f.platform))))
    else
      Step(f.(isSubmitting := true), None)
  }

  /** The timer callback may only fire while a submission is pending. */
  predicate CanFinish(f: Form)
  {
    f.isSubmitting
  }

  /** The timer callback: raise the success toast, clear both fields, stop submitting and close the dialog. */
  function Finish(f: Form): (r: Step)
    requires CanFinish(f)
    ensures r.form.platform == "" && r.form.url == ""
    ensures !r.form.isSubmitting && !r.form.open
    ensures r.toast == Some(LinkAdded)
  {
    Step(Form("", "", false, false), Some(LinkAdded))
  }

  /**
   `handleClose`: clear both fields and close the dialog. It leaves
   `isSubmitting` as it is, so a pending request still finishes later.
   */
  function Close(f: Form): (r: Form)
    ensures r.platform == "" && r.url == "" && !r.open
    ensures r.isSubmitting == f.isSubmitting
  {
    f.(platform := "", url := "", open := false)
  }

  /** Picking a platform in the picker. */
  function PickPlatform(f: Form, value: string): (r: Form)
    ensures r.platform == value && r.url == f.url
    ensures r.isSubmitting == f.isSubmitting && r.open == f.open
  {
    f.(platform := value)
  }

  /** Typing in the URL field. */
  function EditUrl(f: Form, text: string): (r: Form)
    ensures r.url == text && r.platform == f.platform
    ensures r.isSubmitting == f.isSubmitting && r.open == f.open
  {
    f.(url := text)
  }

  /** The submit button is disabled while a request is in flight. */
  predicate CanSubmit(f: Form)
  {
    !f.isSubmitting
  }

  /**
   A successful submission followed by its timer leaves the dialog closed
   with both fields cleared, after exactly one success toast, whatever the
   form held before.
   */
  lemma SubmitThenFinishResets(f: Form, hostOf: HostParser)
    requires CanSubmit(f) && Starts(f, hostOf)
    ensures CanFinish(Submit(f, hostOf).form)
    ensures Finish(Submit(f, hostOf).form) == Step(Opened.(open := false), Some(LinkAdded))
  {
  }

  /** A rejected submission changes nothing, so submitting again gives the same toast. */
  lemma RejectedSubmitIsStable(f: Form, hostOf: HostParser)
    requires !Starts(f, hostOf)
    ensures Submit(Submit(f, hostOf).form, hostOf) == Submit(f, hostOf)
    ensures Submit(f, hostOf).toast.Some? && !Submit(f, hostOf).toast.value.LinkAdded?
  {
  }

  /**
   Only a URL for one of the six platforms whose host is listed for that
   platform can start a submission: for every platform value and every URL,
   starting implies the value names a platform whose host list holds the
   lower-cased host.
   */
  lemma StartedSubmissionIsValidLink(f: Form, hostOf: HostParser)
    requires Submit(f, hostOf).form.isSubmitting && !f.isSubmitting
    ensures ParseKey(f.platform).Some?
    ensures hostOf(f.url).Some?
    ensures Text.ToLower(hostOf(f.url).value) in AllowedHosts(ParseKey(f.platform).value)
  {
  }
}
