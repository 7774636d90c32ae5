# vouch-safe-circle: the logic behind the profile and verification screens

This project models, in Dafny, the parts of the vouch-safe-circle web client
that make decisions, and proves properties about them:

- **Social-link validation and the add-link dialog** (`AddSocialMediaModal.tsx`).
  The six platforms come from a closed picker. Each platform has a table of
  allowed hosts. `validateUrl` accepts a URL only when its lower-cased host
  name is one of the hosts listed for the chosen platform. The dialog is a
  small state machine. It reports missing fields or an invalid URL. Otherwise
  it starts a submission, which then clears the form and closes the dialog.
- **The identity-verification wizard** (`Verification.tsx`). A step number
  from 1 to 4 moves with two independent uploads, for the licence and the
  selfie. A two-phase verify action (begin, then complete) finishes it. A
  four-circle progress indicator follows the step.
- **The licence pre-check** (`DLUpload.tsx`). The MIME type must start with
  `image/`. Then the size must be at most 10 MiB. An accepted file goes
  through an uploading/complete pair of events before it is handed to the
  parent.
- **People search** (`Search.tsx`). A case-insensitive substring filter over a
  fixed user list.
- **The social-link list** (`SocialMediaLinks.tsx`). A read-only projection
  of a profile's links into rows with an icon, a name and badges.

Each component is a module with immutable datatypes and pure functions. A
handler is a function from the state before to the state after. Whether a
handler can fire at all (a button rendered only on some step, or disabled
by a flag) is a separate `Enabled`/`Can…` predicate. A pending `setTimeout`
callback is its own event, which is enabled only while the timer is pending.
Traces of events are run by `Run` functions. Lemmas about them cover
invariants and monotonicity over every sequence of events the page offers.

The `new URL(url).hostname` parser is a collaborator. It is passed in as a
function `hostOf: string -> Option<string>`. `None` stands for the
constructor throwing. Lower-casing is ASCII lower-casing.

Files: `options.dfy` (Option), `text.dfy` (`toLowerCase`, `startsWith`,
`includes`),
`platforms.dfy`, `link_validation.dfy`, `add_link_form.dfy`,
`verification_wizard.dfy`, `licence_upload.dfy`, `user_search.dfy`,
`social_links_view.dfy`.

No file of the client computes a trust score: the profile pages hard-code
it (`goodCompanyScore: 8.5` at src/pages/MyProfile.tsx:16 and
src/pages/Profile.tsx:17). No file implements corroboration or report
thresholds, hides a link, sorts links by platform, or ends a verification
as rejected or timed out. The wizard can only end verified. Every link is
shown in input order, whatever its report count. This model follows the
code and invents none of those rules.

## Model

| member | source | states |
|---|---|---|
| Text.ToLower | src/pages/Search.tsx:25 | lower-casing keeps the length |
| Text.ToLowerAt | src/pages/Search.tsx:25 | at each position an ASCII capital becomes the small letter at the same place in the alphabet, and any other character is kept |
| Text.Contains | src/pages/Search.tsx:25 | `includes` is true iff the needle occurs at some offset of the haystack |
| Text.ContainsEmpty | src/pages/Search.tsx:25 | every string includes the empty string |
| Platforms.ParseKey | src/components/profile/AddSocialMediaModal.tsx:14-21 | decoding a picker value gives a platform whose key is that value, and fails only for strings that are no platform's key |
| Platforms.LabelOf | src/components/profile/AddSocialMediaModal.tsx:63 | the label lookup succeeds iff the value is one of the picker's entries, and then yields that platform's label |
| Platforms.PickerListsEachPlatformOnce | src/components/profile/AddSocialMediaModal.tsx:14-21 | the picker offers all six platforms, each exactly once |
| Platforms.KeyRoundTrip | src/components/profile/AddSocialMediaModal.tsx:14-21 | decoding a platform's picker value gives back that platform |
| Platforms.DomainTableKeysArePickerValues | src/components/profile/AddSocialMediaModal.tsx:30-37 | the host table's keys are exactly the six picker values |
| Platforms.AllowedHosts | src/components/profile/AddSocialMediaModal.tsx:30-37 | every platform has an entry in the host table, and its allowed hosts are that entry |
| Platforms.AliasHosts | src/components/profile/AddSocialMediaModal.tsx:31-36 | twitter also allows x.com and www.x.com, facebook also allows fb.com, and every other platform allows only its bare and `www.` domain |
| Platforms.AllowedHostsAreLowerCase | src/components/profile/AddSocialMediaModal.tsx:30-42 | every listed host is lower-case, so a lower-cased host name can match each one |
| Platforms.HostsIdentifyPlatform | src/components/profile/AddSocialMediaModal.tsx:30-37 | no host is allowed for two different platforms |
| LinkValidation.ValidateUrl | src/components/profile/AddSocialMediaModal.tsx:29-46 | a URL is accepted iff the platform value names a platform, the URL parses, and its lower-cased host is among that platform's hosts; an unknown platform or a parse failure gives false, not an error |
| LinkValidation.AcceptsEveryCapitalisation | src/components/profile/AddSocialMediaModal.tsx:41-42 | any host whose lower-case form is listed is accepted for its platform |
| LinkValidation.AppendedSuffixRejected | src/components/profile/AddSocialMediaModal.tsx:42 | appending any non-empty text to a listed host never gives an accepted host for that platform |
| LinkValidation.NoListedHostExtendsAnother | src/components/profile/AddSocialMediaModal.tsx:30-37 | within a platform no listed host is a proper prefix of another |
| LinkValidation.InstagramExamples | src/components/profile/AddSocialMediaModal.tsx:29-46 | for instagram, www.instagram.com and WWW.Instagram.COM pass while m.instagram.com, instagram.com.evil.com and evil.com fail |
| LinkValidation.AliasExamples | src/components/profile/AddSocialMediaModal.tsx:32-34 | x.com and www.x.com pass for twitter, fb.com passes for facebook, and x.com fails for facebook |
| AddLinkForm.Submit | src/components/profile/AddSocialMediaModal.tsx:48-69 | an empty field gives the missing-fields toast, and a rejected URL gives the invalid-URL toast with the picker label; both leave the form unchanged. Otherwise submission starts, only for a known platform, with no toast and the fields kept |
| AddLinkForm.Finish | src/components/profile/AddSocialMediaModal.tsx:72-83 | completion raises the success toast, clears both fields, stops submitting and closes the dialog |
| AddLinkForm.Close | src/components/profile/AddSocialMediaModal.tsx:86-90 | closing clears both fields and closes, but leaves `isSubmitting` as it was |
| AddLinkForm.PickPlatform | src/components/profile/AddSocialMediaModal.tsx:102 | picking sets the platform value and touches nothing else |
| AddLinkForm.EditUrl | src/components/profile/AddSocialMediaModal.tsx:122 | typing sets the URL text and touches nothing else |
| AddLinkForm.SubmitThenFinishResets | src/components/profile/AddSocialMediaModal.tsx:69-83 | an accepted submission can finish, and finishing leaves a blank, closed, idle form with the success toast |
| AddLinkForm.RejectedSubmitIsStable | src/components/profile/AddSocialMediaModal.tsx:51-67 | a rejected submission raises an error toast and changes nothing, so repeating it gives the same result |
| AddLinkForm.StartedSubmissionIsValidLink | src/components/profile/AddSocialMediaModal.tsx:60-69 | a submission starts only for a platform value naming a platform whose host list holds the URL's lower-cased host |
| VerificationWizard.Apply | src/pages/Verification.tsx:24-44 | start moves to step 2 and changes no flag; an upload sets its own flag and moves to step 3 if the other upload is already in, otherwise keeps the step; begin sets `isVerifying` and keeps the step; complete clears it, sets `isVerified` and moves to step 4; `isVerified` changes only on complete and `isVerifying` only on begin and complete |
| VerificationWizard.StepPreservesInv | src/pages/Verification.tsx:24-44 | every event the page offers keeps the step invariant and never lowers the step |
| VerificationWizard.RunPreservesInv | src/pages/Verification.tsx:18-44 | along any run of offered events the invariant holds and the step never decreases |
| VerificationWizard.ReachableVerifiedIsFinalStep | src/pages/Verification.tsx:18-44 | in every state reachable from the initial page the step is 1 to 4, and `isVerified` implies step 4 |
| VerificationWizard.UploadOrderIrrelevant | src/pages/Verification.tsx:24-34 | both upload orders reach the same state: step 3 with both flags set |
| VerificationWizard.SingleUploadStaysOnStep2 | src/pages/Verification.tsx:24-34 | the first of the two uploads is offered and leaves the step at 2 |
| VerificationWizard.UploadsAreOneShot | src/pages/Verification.tsx:112-141 | once an upload's flag is set, no offered run contains that upload again, and the flag stays set to the end of the run |
| VerificationWizard.HappyPath | src/pages/Verification.tsx:18-44 | start, both uploads, begin and complete lead from the initial page to step 4, verified |
| VerificationWizard.Progress | src/pages/Verification.tsx:222-231 | circle k is highlighted iff k is at most the step, and checked iff k is below the step |
| VerificationWizard.ProgressCounts | src/pages/Verification.tsx:222-231 | on step s exactly s circles are highlighted and s - 1 checked, and every checked circle is highlighted |
| LicenceUpload.Precheck | src/components/verification/DLUpload.tsx:20-29 | a file passes iff its type starts with `image/` and it is at most 10 MiB; the type error wins over the size error |
| LicenceUpload.Pick | src/components/verification/DLUpload.tsx:15-33 | no file changes nothing, a rejected file only sets its error, and an accepted file clears the error and starts uploading it |
| LicenceUpload.ErrorLine | src/components/verification/DLUpload.tsx:21-72 | the error line shows exactly when the card holds an error: "Please upload an image file" for a wrong type, "File size must be less than 10MB" for a file too large |
| LicenceUpload.Complete | src/components/verification/DLUpload.tsx:35-38 | completion stops uploading and hands over exactly the pending file |
| LicenceUpload.RunDeliversCheckedFiles | src/components/verification/DLUpload.tsx:15-38 | along any run the card keeps its invariant, every file handed to the parent passed both checks, and there are no more hand-overs than accepted picks |
| LicenceUpload.SizeBoundaryAndCheckOrder | src/components/verification/DLUpload.tsx:20-29 | exactly 10 MiB passes, one byte more is too large, and an oversized non-image reports the type error |
| LicenceUpload.PickThenCompleteDeliversOnce | src/components/verification/DLUpload.tsx:31-38 | an accepted pick followed by completion hands that file over and leaves no pending upload |
| UserSearch.Filter | src/pages/Search.tsx:24-26 | a user is in the results iff the user is in the list and their lower-cased name includes the lower-cased query |
| UserSearch.FilterIsSubsequence | src/pages/Search.tsx:24-26 | the results are a subsequence of the list: same order, nothing added |
| UserSearch.EmptyQueryReturnsAll | src/pages/Search.tsx:24-26 | the empty query returns the whole list |
| UserSearch.FilterIdempotent | src/pages/Search.tsx:24-26 | filtering the results again with the same query changes nothing |
| UserSearch.FilterIgnoresQueryCase | src/pages/Search.tsx:25 | queries with the same lower-case form give identical results |
| UserSearch.Type | src/pages/Search.tsx:58 | typing changes the query but not the results shown |
| UserSearch.Search | src/pages/Search.tsx:23-28 | a search shows exactly the matching users of the full list, in list order |
| UserSearch.SearchDependsOnlyOnQuery | src/pages/Search.tsx:23-28 | a search ignores the results on show, and repeating it changes nothing |
| UserSearch.InitialShowsAll | src/pages/Search.tsx:20 | before any search the whole list is shown, and searching with the empty query keeps it |
| SocialLinksView.Icon | src/components/profile/SocialMediaLinks.tsx:23-30 | every platform has an icon: `<key>.svg` under the icon base |
| SocialLinksView.Name | src/components/profile/SocialMediaLinks.tsx:32-39 | every platform has a display name, equal to its picker label |
| SocialLinksView.NamesAndIconsIdentifyPlatform | src/components/profile/SocialMediaLinks.tsx:23-39 | distinct platforms have distinct names and distinct icons |
| SocialLinksView.RowOf | src/components/profile/SocialMediaLinks.tsx:69-103 | the check icon and the Verified badge show iff the link is verified; the warning icon shows iff its report count is positive |
| SocialLinksView.RowsOf | src/components/profile/SocialMediaLinks.tsx:69 | one row per link, the i-th row rendering the i-th link |
| SocialLinksView.Render | src/components/profile/SocialMediaLinks.tsx:63-69 | the placeholder shows iff there are no links; otherwise row i is link i's own row (its id, icon, name, check and warning icons and badge), in input order |
| SocialLinksView.RowsOfAppend | src/components/profile/SocialMediaLinks.tsx:69 | rendering concatenated lists concatenates their rows, so nothing is filtered or reordered |
| SocialLinksView.BadgeCountMatchesVerifiedLinks | src/components/profile/SocialMediaLinks.tsx:99-103 | the number of Verified badges equals the number of verified links |

## Left out

- The full WHATWG URL parser behind `new URL` is not modelled. It is a parameter that yields the host name or fails.
- Text.ToLower: lower-cases ASCII letters only, because JavaScript's Unicode case mapping is not modelled. Non-ASCII hosts and names are compared as they are. Its own contract states only the length; what happens to each character is stated by the lemma `Text.ToLowerAt`.
- Timer delays (1 s, 1.5 s and 3 s) are not modelled. Each `setTimeout` callback is a separate event that can happen at any later point while it is pending.
- Toast rendering, `window.open`, navigation after verification, and the camera button's `console.log` are left out as I/O.
- The live camera and canvas capture of SelfieCapture.tsx is not part of this model. The wizard's selfie upload is the page's own mock handler.
- `isUploaded` of DLUpload is owned by the parent. It appears only as an argument that hides the picker.
- The avatar initials, the verified dot and the age/endorsement line of a search result are display only and not modelled.
- Endorsements, trust scores, verify and report thresholds, link hiding and rejected verification outcomes are not implemented by the code, so they are not modelled.
- The Supabase table declarations in src/integrations/supabase/types.ts are generated types with no behaviour, and none of the modelled components reads them; they are not modelled. The fields of `SocialLinksView.SocialLink` follow the `SocialMediaLink` interface of src/components/profile/SocialMediaLinks.tsx:7-16.
- AddLinkForm.Submit: the browser's own constraint validation in front of `handleSubmit` is not modelled. The URL input is `type="url"` and `required` and the form has no `noValidate` (src/components/profile/AddSocialMediaModal.tsx:118-125), so in the page an empty URL, or one that is not an absolute URL, is stopped by the browser before the handler runs; the missing-fields toast for an empty URL and most invalid-URL toasts therefore never show. The model describes the handler on every input.
- A second "Verify Identity" click before the button re-renders as disabled is not modelled. The verify button is treated as disabled as soon as `isVerifying` is set.
