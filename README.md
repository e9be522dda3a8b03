# Portfolio site: content routes, admin dashboard and interactive sections

This project models the logic of a personal portfolio web site and proves properties of that model. The site has three parts.

**Content upload-and-persist routes** (media videos, CV documents, projects, experiences). Each request handler:
- validates the form it receives;
- uploads a file to the media host;
- checks the title or the name against the document store;
- inserts or updates a record;
- destroys hosted files to clean up.

The document store is modelled as a `map<Id, Record>` per collection, with the record shapes of `lib/types.ts`. The media host is a `set<BlobId>` of public ids. Each route's state is a `Services` class holding both stores and an id counter. Every external call is an input to the handler, so every failure path can be stated: upload delivered or failed, query answered or timed out or failed, write stored or failed, destroy ok or not.

Each handler is written two ways:
- a pure `…Effect` function that returns the reply and the new stores;
- a method on the class that performs the same steps in the source's order, and whose `ensures` ties the reply and the new state to that function.

The path properties and the "ledger" properties are proved about the Effect functions. A ledger is consistent when the hosted files are exactly the files the records name, and no two records name the same file. The lemmas show where each route can leave an orphan file or a dangling reference, and where it cannot.

**Subscriber and message routes** (subscriptions, newsletter sign-up, contact messages). These cover:
- the e-mail shape test `^[^\s@]+@[^\s@]+\.[^\s@]+$`, proved equal to a character-level predicate;
- duplicate detection, with the record's own id excluded on update;
- the `isAdmin=true` query gate;
- insert-only collections.

**Client-side state.** The admin dashboard's submit checks and list reconciliation, and the FAQ section:
- open answers;
- the latest CV, found by an in-place sort of the loaded array;
- the download URL rewrite and the file-name sanitiser.

Also:
- the contact form;
- the four pages that enrich a fetched listing;
- the two carousels;
- the video gallery's exclusive-playback state machine.

Shared modules:
- `Common`: the option type, ids, form values, replies and collaborator outcomes;
- `Text`: ASCII trim, lower-case and substring search;
- `EmailFormat`;
- `Records`: the record types;
- `BlobLedger`: the generic consistency predicate and its insert/replace/remove lemmas;
- `MediaHost`: public ids derived from delivery URLs;
- `PageLoad`: the shared payload check of the listing pages;
- `Carousel`: modular index stepping.

A replaced file is not always destroyed after its replacement is confirmed:
- the CV and experience routes destroy the old file *before* uploading the new one;
- the media route destroys it right after the upload and before the title check;
- only the projects route uploads first and destroys afterwards.

The lemmas `VitaeRoute.PutDeletesBeforeUpload`, `ExperiencesRoute.PutDeletesBeforeUpload`, `MediaHandlers.PutLedger` and `ProjectsRoute.PutUploadsThenDeletes` state each order.

## Model

| member | source | states |
|---|---|---|
| MediaRoute.ValidateVideoFile | app/api/media/route.ts:25-38 | accepted iff the MIME type is one of the five video types and the size is at most 100 MiB; the type is tested first, so an oversized file of a wrong type gets the format message |
| MediaRoute.UploadedVideo | app/api/media/route.ts:114-122 | url and public id come from the host; duration, width, height and bytes default to 0 and an absent or empty format to "mp4" |
| MediaRoute.UploadVideo | app/api/media/route.ts:41-131 | the upload succeeds iff the host delivered a result, and then carries exactly the defaulted result |
| MediaRoute.UploadFailureStatus | app/api/media/route.ts:97-106 | an upload failure maps, through the classifier, to 408 for a timeout or code 499, 413 for code 413, 400 for an "Invalid" message and 500 otherwise, including the missing-result case |
| MediaRoute.ClassifyError | app/api/media/route.ts:362-386 | the status is always one of 400, 408, 413, 500, 502 |
| MediaRoute.ClassifyErrorOrder | app/api/media/route.ts:362-386 | each status holds iff its words occur in the lower-cased message and no earlier group's words do: timeout, then too large/413, then network/connection, then invalid/format, else 500 |
| MediaRoute.ClassifyIgnoresCase | app/api/media/route.ts:366 | classifying a lower-cased message gives the same result as the original |
| MediaRoute.CheckTitleExists | app/api/media/route.ts:150-190 | reports taken only when a record other than `excludeId` holds the trimmed title, and then exactly when the query is eventually answered; it makes between 1 and 3 - retryCount queries |
| MediaRoute.FailOpenOnOtherErrors | app/api/media/route.ts:186-188 | a first failure without "timeout" answers "not taken" after one query |
| MediaRoute.FailOpenAfterRetries | app/api/media/route.ts:181-188 | three timeouts in a row answer "not taken" after three queries |
| MediaRoute.OwnTitleIsNotAConflict | app/api/media/route.ts:155-176 | when only the excluded record holds the title, the check never reports it taken |
| MediaHandlers.ErrorReply | app/api/media/route.ts:362-386 | the failure reply carries the classifier's status and message and `success: false` |
| MediaHandlers.PostPrecheck | app/api/media/route.ts:230-291 | no refusal iff multipart content type, parsed form, non-blank title, a file and a valid video; with everything but a valid file present, the refusal is the validator's message |
| MediaHandlers.CategoryOrGeneral | app/api/media/route.ts:318-332 | never empty: the trimmed category, or "general" when blank |
| MediaHandlers.PostRefusedTouchesNothing | app/api/media/route.ts:230-291 | a refused post answers 400 with the precheck's message, and neither store changes |
| MediaHandlers.PostInsertsOnlyOnSuccess | app/api/media/route.ts:298-356 | 201 iff the checks pass, the upload succeeds, the title is free and the write succeeds; only then one record is inserted under a fresh id, with trimmed title and description, defaulted category, 0 views and the upload's url, id and metadata |
| MediaHandlers.PostInsertsFreshTitle | app/api/media/route.ts:298-315 | when the title query is answered, a created record's title is held by no earlier record |
| MediaHandlers.PostKeepsIssued | app/api/media/route.ts:338-343 | every record id stays below the id counter |
| MediaHandlers.PostLedger | app/api/media/route.ts:298-343 | the ledger stays consistent iff the request leaves no orphan upload |
| MediaHandlers.PostCommitLedger | app/api/media/route.ts:305-343 | after a fresh upload, consistent iff on a taken title the cleanup destroy succeeded, and otherwise the write succeeded |
| MediaHandlers.PutRefusedTouchesNothing | app/api/media/route.ts:405-461 | unreadable form gives 500, a missing id or title 400, an unknown id 404, an invalid file 400 and a failed upload 500, and none of these changes the stores |
| MediaHandlers.PutRewritesOnlyOnSuccess | app/api/media/route.ts:425-491 | 200 iff the record exists, the file (if any) is valid and uploaded, the title is free and the write succeeds; only then the record is rewritten with trimmed fields, kept views and creation time, the new update time and, with a file, the new url and id |
| MediaHandlers.PutWithoutFileKeepsVideos | app/api/media/route.ts:425-430 | without a new file no record's `src` or `publicId` changes, the host is untouched and consistency is kept |
| MediaHandlers.PutOwnTitleNeverConflicts | app/api/media/route.ts:464-478 | keeping a title only the edited record holds never yields the title-taken error |
| MediaHandlers.PutLedger | app/api/media/route.ts:433-480 | after a fresh upload: on 200 consistent iff there was no old file or its destroy succeeded; on 400 iff the cleanup succeeded and the old file is not still named; on 500 never |
| MediaHandlers.DeleteAttemptsBoth | app/api/media/route.ts:504-534 | unknown id gives 404 with no calls and a missing id 400; otherwise 200, and the record removal and the file destroy each take effect on their own outcome |
| MediaHandlers.DeleteLedger | app/api/media/route.ts:513-534 | consistency survives iff the record named no file or both removals agree |
| MediaHandlers.Services.constructor | app/api/media/route.ts:218-541 | empty stores, consistent and issued |
| MediaHandlers.Services.Post | app/api/media/route.ts:218-388 | the reply and the new stores are those of `PostEffect` |
| MediaHandlers.Services.CommitUpload | app/api/media/route.ts:305-356 | the reply and the new stores are those of `PostCommit` |
| MediaHandlers.Services.Put | app/api/media/route.ts:390-500 | the reply and the new stores are those of `PutEffect` |
| MediaHandlers.Services.EditAdmitted | app/api/media/route.ts:423-491 | on an existing record, the reply and the new stores are those of `PutAdmittedEffect` with the title check made on the collection as the request found it |
| MediaHandlers.Services.TitleTaken | app/api/media/route.ts:464-466 | the answer is PUT's title check: taken exactly when the trimmed title differs from the stored one and the lookup, which excludes the record itself, finds it; nothing is changed |
| MediaHandlers.Services.UploadReplacement | app/api/media/route.ts:433-461 | an invalid file gives 400 and a failed upload 500 with the host unchanged; a delivered file yields the record with the new video and the host after the upload and the old file's destroy |
| MediaHandlers.Services.CommitEdit | app/api/media/route.ts:464-491 | the reply and the new stores are those of `PutCommit` |
| MediaHandlers.Services.Delete | app/api/media/route.ts:502-541 | the reply and the new stores are those of `DeleteEffect` |
| MediaHost.FileStem | app/api/projects/route.ts:152-159 | the last path segment cut at its first "."; it contains no "/" and no "." |
| MediaHost.RawFileStem | app/api/vitae/route.ts:8-19 | the last path segment cut at its first "," and then at its first "." |
| MediaHost.FileStemOfDeliveryUrl | app/api/projects/route.ts:152-159 | on a delivery URL `base/…/name.ext` the stem is `name` |
| MediaHost.RawFileStemOfDeliveryUrl | app/api/vitae/route.ts:8-19 | on a delivery URL `base/…/name.ext` the extracted id is `name` |
| MediaHost.LocatesDeliveryUrl | app/api/experiences/route.ts:79-84 | a delivery URL is located by `folder/name` |
| VitaeRoute.ValidatePdfFile | app/api/vitae/route.ts:22-35 | accepted iff the type is exactly "application/pdf" and the size is at most 10 MiB |
| VitaeRoute.VitaeRef | app/api/vitae/route.ts:215-238 | the file a CV names is never the empty id |
| VitaeRoute.VitaeRefOfDeliveryUrl | app/api/vitae/route.ts:229-238 | without a stored public id, the file named is "vitae/" + the id extracted from the URL |
| VitaeRoute.VitaeRefPrefersPublicId | app/api/vitae/route.ts:216 | a stored public id takes precedence over the URL |
| VitaeRoute.WithoutFileOf | app/api/vitae/route.ts:66-73 | the old file is removed iff it is named and its destroy succeeds; otherwise the host is unchanged |
| VitaeRoute.PostPrecheck | app/api/vitae/route.ts:113-133 | no refusal iff a non-blank name and an accepted PDF; the refusals are name, then file, then PDF, in that order |
| VitaeRoute.PostChecksBeforeAnyCall | app/api/vitae/route.ts:113-133 | a request refused by the checks gives the same reply whatever the query, upload, write and clock, and changes nothing |
| VitaeRoute.PostNameTakenCreatesNoFile | app/api/vitae/route.ts:136-145 | a taken name gives 400 before any upload, whatever the later outcomes, and changes nothing |
| VitaeRoute.PostInsertsOnlyOnSuccess | app/api/vitae/route.ts:148-172 | 201 iff the checks pass, the name is free, the upload and the write succeed; only then one record with the trimmed name, the upload's url and public id is inserted under a fresh id |
| VitaeRoute.PostKeepsIssued | app/api/vitae/route.ts:162 | every record id stays below the id counter |
| VitaeRoute.PostKeepsNamesUnique | app/api/vitae/route.ts:136-162 | no two CVs share a name after a post |
| VitaeRoute.PostLedger | app/api/vitae/route.ts:148-179 | consistency is lost exactly when the upload succeeded and the write failed |
| VitaeRoute.PutRefusals | app/api/vitae/route.ts:190-213 | unreadable form gives 500, a missing id 400, a blank name 400 and an unknown id 404, regardless of later outcomes, and nothing changes |
| VitaeRoute.PutWithoutFileKeepsFile | app/api/vitae/route.ts:215-280 | without a file the host is untouched; on 200 only the name and time change and `file`/`publicId` are kept; any other reply changes nothing |
| VitaeRoute.PutDeletesBeforeUpload | app/api/vitae/route.ts:220-280 | with a file the old one is destroyed first; a failed upload answers 500 with the old file already gone; after an upload a name conflict answers 400 and keeps the new file |
| VitaeRoute.PutKeepsNamesUnique | app/api/vitae/route.ts:247-270 | no two CVs share a name after an edit |
| VitaeRoute.PutWithoutFileLedger | app/api/vitae/route.ts:215-270 | an edit without a file keeps a consistent ledger |
| VitaeRoute.PutLedger | app/api/vitae/route.ts:220-270 | a failed upload stays consistent iff the old file was kept; after an upload, 200 stays consistent iff the old file was destroyed, and any other reply leaves an orphan |
| VitaeRoute.ReplacementLedger | app/api/vitae/route.ts:229-270 | swapping a record's file is consistent iff the old file was removed or was never named |
| VitaeRoute.DeleteSwallowsFileErrors | app/api/vitae/route.ts:303-336 | an unknown id gives 404 with no calls; otherwise the destroy outcome never changes the reply; 200 iff the record removal succeeds |
| VitaeRoute.DeleteLedger | app/api/vitae/route.ts:316-327 | consistency survives iff the CV named no file or both removals agree |
| VitaeRoute.Services.constructor | app/api/vitae/route.ts:106-336 | empty stores, consistent, issued, names unique |
| VitaeRoute.Services.Post | app/api/vitae/route.ts:106-180 | the reply and the new stores are those of `PostEffect` |
| VitaeRoute.Services.CommitUpload | app/api/vitae/route.ts:148-172 | the reply and the new stores are those of `PostCommit` |
| VitaeRoute.Services.Put | app/api/vitae/route.ts:182-288 | the reply and the new stores are those of `PutEffect` |
| VitaeRoute.Services.EditFound | app/api/vitae/route.ts:215-280 | on an existing CV, the reply and the new stores are those of `PutFound` |
| VitaeRoute.Services.CommitEdit | app/api/vitae/route.ts:246-280 | the reply and the new stores are those of `PutCommit` |
| VitaeRoute.Services.Delete | app/api/vitae/route.ts:290-336 | the reply and the new stores are those of `DeleteEffect` |
| ProjectsRoute.CatalogShape | app/api/projects/route.ts:8-24 | the catalog has 15 distinct names |
| ProjectsRoute.AllInCatalog | app/api/projects/route.ts:64-68 | true iff every element is a catalog name |
| ProjectsRoute.CheckSoftwares | app/api/projects/route.ts:61-68 | an absent field gives [], an unparsable one makes the handler fail, and a present list is accepted unchanged iff every name is in the catalog |
| ProjectsRoute.ProjectRef | app/api/projects/route.ts:152-159 | a project with an image names "projects/" + the URL's file stem |
| ProjectsRoute.LocatedIsNamed | app/api/projects/route.ts:80-92 | a record holding an upload's URL names that upload's public id |
| ProjectsRoute.PostChecksSoftwaresFirst | app/api/projects/route.ts:61-68 | a rejected software list gives 400 before any upload, whatever the later outcomes, and changes nothing |
| ProjectsRoute.PostInsertsOnlyOnSuccess | app/api/projects/route.ts:70-104 | 200 iff the list is accepted, an image (if any) is a file and uploads, and the write succeeds; the record keeps title, description and list as sent, with both times set; no image means no host change and no image |
| ProjectsRoute.PostKeepsIssued | app/api/projects/route.ts:102 | every record id stays below the id counter |
| ProjectsRoute.PostLedger | app/api/projects/route.ts:70-108 | consistency is lost exactly when an image uploaded and the write failed |
| ProjectsRoute.ImageText | app/api/projects/route.ts:160-162 | a text image value is kept as is and an absent one becomes no image |
| ProjectsRoute.PutChecksSoftwaresFirst | app/api/projects/route.ts:120-127 | a rejected software list gives 400 before any upload, whatever the later outcomes, and changes nothing |
| ProjectsRoute.PutRewritesOnlyOnSuccess | app/api/projects/route.ts:129-173 | 200 iff every step succeeds; then title, description, list and image are rewritten and the creation time kept; a non-file image makes no host call |
| ProjectsRoute.PutUploadsThenDeletes | app/api/projects/route.ts:129-159 | the new file is uploaded before the old one is destroyed; a failed destroy answers 500 leaving both files |
| ProjectsRoute.PutLedger | app/api/projects/route.ts:129-177 | with a fresh upload, the ledger is consistent iff the reply is 200 |
| ProjectsRoute.PutWithoutFileLedger | app/api/projects/route.ts:160-171 | an edit keeping the named file stays consistent; clearing the image of a record that named a file leaves an orphan; failures change nothing |
| ProjectsRoute.DeleteHasNoNotFound | app/api/projects/route.ts:180-196 | an unknown id still answers 200; a failed destroy answers 500 and keeps the record; 200 iff the removal succeeds after any destroy succeeded |
| ProjectsRoute.DeleteLedger | app/api/projects/route.ts:183-190 | consistency is lost exactly when the destroy succeeded and the removal failed |
| ProjectsRoute.Services.constructor | app/api/projects/route.ts:53-196 | empty stores, consistent and issued |
| ProjectsRoute.Services.Post | app/api/projects/route.ts:53-109 | the reply and the new stores are those of `PostEffect` |
| ProjectsRoute.Services.Put | app/api/projects/route.ts:111-178 | the reply and the new stores are those of `PutEffect` |
| ProjectsRoute.Services.Delete | app/api/projects/route.ts:180-197 | the reply and the new stores are those of `DeleteEffect` |
| ExperiencesRoute.ParseVerified | app/api/experiences/route.ts:25 | true iff the field is exactly the text "true" |
| ExperiencesRoute.ExperienceRef | app/api/experiences/route.ts:79-84 | a record names a file iff it has an image, and then "experiences/" + the URL's stem |
| ExperiencesRoute.LocatedIsNamed | app/api/experiences/route.ts:33-53 | a record holding an upload's URL names that upload's public id |
| ExperiencesRoute.PostRejectsNonImage | app/api/experiences/route.ts:29-31 | a non-image file gives 400 before any upload, whatever the later outcomes, and changes nothing |
| ExperiencesRoute.PostStoresExactly | app/api/experiences/route.ts:33-56 | 200 iff the upload and the write succeed; then exactly name, subject, the uploaded URL and the parsed flag are stored under a fresh id |
| ExperiencesRoute.PostKeepsIssued | app/api/experiences/route.ts:54 | every record id stays below the id counter |
| ExperiencesRoute.PostLedger | app/api/experiences/route.ts:33-60 | consistency is lost exactly when the upload succeeded and the write failed |
| ExperiencesRoute.ImageText | app/api/experiences/route.ts:106-108 | a text image value is kept as is and an absent one becomes no image |
| ExperiencesRoute.PutRewritesOnlyOnSuccess | app/api/experiences/route.ts:73-113 | 200 iff every step succeeds; then name, subject, flag and image are rewritten; a text image makes no host call |
| ExperiencesRoute.PutDeletesBeforeUpload | app/api/experiences/route.ts:79-105 | the old file is destroyed before the upload: a failed destroy answers 500 with no upload and no change; a failed upload answers 500 with the old file already gone |
| ExperiencesRoute.PutLedger | app/api/experiences/route.ts:73-117 | consistent iff the reply is 200, or the old file's destroy failed, or there was no old file and the upload failed |
| ExperiencesRoute.DeleteHasNoNotFound | app/api/experiences/route.ts:120-134 | an unknown id still answers 200; a failed destroy answers 500 and keeps the record; 200 iff the removal succeeds after any destroy succeeded |
| ExperiencesRoute.DeleteLedger | app/api/experiences/route.ts:123-128 | consistency is lost exactly when the destroy succeeded and the removal failed |
| ExperiencesRoute.Services.constructor | app/api/experiences/route.ts:20-134 | empty stores, consistent and issued |
| ExperiencesRoute.Services.Post | app/api/experiences/route.ts:20-61 | the reply and the new stores are those of `PostEffect` |
| ExperiencesRoute.Services.Put | app/api/experiences/route.ts:63-118 | the reply and the new stores are those of `PutEffect` |
| ExperiencesRoute.Services.Delete | app/api/experiences/route.ts:120-135 | the reply and the new stores are those of `DeleteEffect` |
| EmailFormat.IsValidEmailIff | app/api/subscribe/route.ts:9-11 | the character test (no space, exactly one "@" not first, a "." after it neither adjacent nor last) holds iff the address splits as the pattern's three non-empty runs |
| SubscribeRoute.PostRejectsInvalidEmail | app/api/subscribe/route.ts:9-11 | a malformed address gives 400 whatever the later outcomes and changes nothing |
| SubscribeRoute.PostInsertsOnlyNewAddresses | app/api/subscribe/route.ts:13-24 | 201 iff the address is well formed, not yet present and written; a present one gives 400; success inserts exactly `{email, createdAt}` under a fresh id |
| SubscribeRoute.PostKeepsIssued | app/api/subscribe/route.ts:19-22 | every record id stays below the id counter |
| SubscribeRoute.PostKeepsEmailsUnique | app/api/subscribe/route.ts:13-22 | no two subscribers share an address after a post |
| SubscribeRoute.GetEffect | app/api/subscribe/route.ts:31-51 | 401 without the admin flag, all subscribers on an answered query, 500 on a failed one |
| SubscribeRoute.DeleteGuarded | app/api/subscribe/route.ts:53-73 | without the flag 401 before the id is read; 200 iff admin, an id and a successful removal, which removes exactly that id |
| SubscribeRoute.PutGuarded | app/api/subscribe/route.ts:79-83 | without the flag 401 before id or address are read, and nothing changes |
| SubscribeRoute.PutChangesOnlyEmail | app/api/subscribe/route.ts:85-103 | 200 iff admin, id, well-formed address held by no other record, existing record and successful write; then only the address and update time change |
| SubscribeRoute.PutOwnEmailIsNotADuplicate | app/api/subscribe/route.ts:89-96 | re-saving a record's own address succeeds |
| SubscribeRoute.PutKeepsEmailsUnique | app/api/subscribe/route.ts:89-101 | no two subscribers share an address after an edit |
| SubscribeRoute.Services.constructor | app/api/subscribe/route.ts:5-107 | an empty collection, issued, addresses unique |
| SubscribeRoute.Services.Post | app/api/subscribe/route.ts:5-29 | the reply and the new store are those of `PostEffect` |
| SubscribeRoute.Services.Get | app/api/subscribe/route.ts:31-51 | the reply is that of `GetEffect` and nothing changes |
| SubscribeRoute.Services.Delete | app/api/subscribe/route.ts:53-73 | the reply and the new store are those of `DeleteEffect` |
| SubscribeRoute.Services.Put | app/api/subscribe/route.ts:75-108 | the reply and the new store are those of `PutEffect` |
| NewsletterRoute.NotificationIsBestEffort | app/api/newsletter/route.ts:33-48 | the notification outcome changes neither the reply nor the stored state |
| NewsletterRoute.SignupRejectsInvalidEmail | app/api/newsletter/route.ts:14-16 | a malformed address gives 400 whatever the later outcomes and changes nothing |
| NewsletterRoute.SignupStoresOnlyNewAddresses | app/api/newsletter/route.ts:19-50 | 200 iff well formed, new and written; a present address gives 400; success inserts exactly `{email, subscribedAt}` and returns its id |
| NewsletterRoute.SignupKeepsIssued | app/api/newsletter/route.ts:27-30 | every record id stays below the id counter |
| NewsletterRoute.SignupKeepsEmailsUnique | app/api/newsletter/route.ts:19-30 | no two sign-ups share an address |
| NewsletterRoute.Services.constructor | app/api/newsletter/route.ts:9-55 | an empty collection, issued, addresses unique |
| NewsletterRoute.Services.Signup | app/api/newsletter/route.ts:9-55 | the reply and the new store are those of `SignupEffect` |
| MessagesRoute.SendChecksFieldsFirst | app/api/messages/route.ts:9-15 | an empty field gives the fields error, then a malformed address the e-mail error, both changing nothing |
| MessagesRoute.SendStoresExactly | app/api/messages/route.ts:17-28 | 201 iff all fields are filled, the address is valid and the write succeeds; then the seven fields and the time are inserted under a fresh id |
| MessagesRoute.SendKeepsIssued | app/api/messages/route.ts:17-26 | every record id stays below the id counter |
| MessagesRoute.SendKeepsWellFormed | app/api/messages/route.ts:9-26 | every stored message has all fields filled and a valid address |
| MessagesRoute.ListEffect | app/api/messages/route.ts:35-55 | 401 without the admin flag, all messages on an answered query, 500 on a failed one |
| MessagesRoute.Services.constructor | app/api/messages/route.ts:5-55 | an empty collection, issued and well formed |
| MessagesRoute.Services.Send | app/api/messages/route.ts:5-33 | the reply and the new store are those of `SendEffect` |
| MessagesRoute.Services.List | app/api/messages/route.ts:35-55 | the reply is that of `ListEffect` and nothing changes |
| AdminForms.CatalogMatchesRoute | app/admin/page.tsx:60-76 | the page's software list is the projects route's catalog |
| AdminForms.CheckProject | app/admin/page.tsx:155-158 | accepted iff trimmed title and description are both non-empty |
| AdminForms.BlankProjectRefused | app/admin/page.tsx:155-158 | an all-space title or description is refused with the required message |
| AdminForms.CheckExperienceImage | app/admin/page.tsx:202-212 | accepted iff a file is at most 10 MiB with an image type; the size is tested first |
| AdminForms.CheckMedia | app/admin/page.tsx:250-277 | accepted iff the trimmed title is non-empty and, when creating, a file of at most 100 MiB with a listed video type is chosen |
| AdminForms.MediaCheckAgreesWithRoute | app/admin/page.tsx:257-277 | with a title, a new upload passes the page's check iff the route's validator accepts it |
| AdminForms.MediaCheckOrderDiffers | app/admin/page.tsx:257-277 | an oversized file of a wrong type gets the size message here and the format message from the route |
| AdminForms.CheckVitaeFile | app/admin/page.tsx:391-401 | accepted iff no file, or a file of at most 10 MiB whose type contains "pdf" |
| AdminForms.VitaeCheckAdmitsRouteFiles | app/admin/page.tsx:391-401 | every file the route accepts passes the page's check |
| AdminForms.VitaeCheckIsLooser | app/admin/page.tsx:391-401 | a type such as "application/x-pdf" passes the page and is refused by the route |
| AdminForms.CheckEmail | app/admin/page.tsx:441-445 | accepted iff the address is non-empty and well formed |
| AdminForms.EmailCheckAgreesWithRoute | app/admin/page.tsx:441-445 | the page accepts exactly the addresses the subscription route accepts |
| AdminForms.Drop | app/admin/page.tsx:731-734 | removes every occurrence of the name and keeps every other |
| AdminForms.DropOfAppend | app/admin/page.tsx:731-734 | dropping distributes over concatenation |
| AdminForms.DropAbsent | app/admin/page.tsx:731-734 | dropping an absent name changes nothing |
| AdminForms.ToggleSoftware | app/admin/page.tsx:727-737 | checking appends the name; unchecking removes it everywhere; other names are unaffected |
| AdminForms.RemoveChip | app/admin/page.tsx:755-760 | removing a chip is unchecking its box |
| AdminForms.UncheckUndoesCheck | app/admin/page.tsx:727-737 | check then uncheck drops the name, restoring the list when it was absent |
| AdminForms.ReplaceWhere | app/admin/page.tsx:176-177 | same length; exactly the items with the id are replaced |
| AdminForms.RemoveWhere | app/admin/page.tsx:553-591 | keeps exactly the items whose id differs |
| AdminForms.RemoveWhereOfAppend | app/admin/page.tsx:553-591 | removal distributes over concatenation |
| AdminForms.RemoveWhereAbsent | app/admin/page.tsx:553-591 | removing an absent id changes nothing |
| AdminForms.Reconciled | app/admin/page.tsx:176-180 | after an edit only the edited item is replaced and the length is kept; after a create the item is appended at the end |
| AdminDashboard.ProjectSubmit | app/admin/page.tsx:153-193 | always shows a toast; a refused form leaves the dashboard unchanged |
| AdminDashboard.ProjectAnswered | app/admin/page.tsx:159-192 | always shows a toast and ends loading |
| AdminDashboard.ExperienceSubmit | app/admin/page.tsx:195-242 | always shows a toast and ends loading |
| AdminDashboard.ExperienceAnswered | app/admin/page.tsx:218-241 | always shows a toast and ends loading |
| AdminDashboard.MediaSubmit | app/admin/page.tsx:244-384 | always shows a toast and ends loading |
| AdminDashboard.MediaAnswered | app/admin/page.tsx:334-384 | always shows a toast and ends loading |
| AdminDashboard.VitaeSubmit | app/admin/page.tsx:386-434 | always shows a toast and ends loading |
| AdminDashboard.VitaeAnswered | app/admin/page.tsx:407-433 | always shows a toast and ends loading |
| AdminDashboard.EmailSubmit | app/admin/page.tsx:436-480 | always shows a toast and ends loading |
| AdminDashboard.EmailAnswered | app/admin/page.tsx:446-479 | always shows a toast and ends loading |
| AdminDashboard.RequestDelete | app/admin/page.tsx:529-551 | the confirmation target becomes the given item |
| AdminDashboard.ConfirmDelete | app/admin/page.tsx:553-591 | with a target, clears it and ends loading; without one does nothing |
| AdminDashboard.SoftwareChecked | app/admin/page.tsx:727-737 | only the selected software list changes, as `ToggleSoftware` says |
| AdminDashboard.ChipRemoved | app/admin/page.tsx:755-760 | the same as unchecking the box |
| AdminDashboard.BlankProjectSendsNothing | app/admin/page.tsx:155-158 | a refused project form gives the same outcome whatever the server would answer, with the alert and no change |
| AdminDashboard.ProjectSaveReconciles | app/admin/page.tsx:176-183 | a saved project replaces only the edited item (same length) or is appended; other lists are kept, the form resets and editing ends |
| AdminDashboard.ExperienceSaveReconciles | app/admin/page.tsx:224-232 | a saved experience replaces only the edited item or is appended; other lists are kept and the form resets |
| AdminDashboard.MediaSaveReconciles | app/admin/page.tsx:356-373 | a saved video replaces only the edited item or is appended; other lists are kept and the form resets |
| AdminDashboard.VitaeSaveReconciles | app/admin/page.tsx:416-424 | a saved CV replaces only the edited item or is appended; other lists are kept and the form resets |
| AdminDashboard.EmailSaveReconciles | app/admin/page.tsx:462-469 | a saved address replaces only the edited row or is appended with its new id; other lists are kept and the field empties |
| AdminDashboard.FailedProjectSubmitKeepsState | app/admin/page.tsx:184-191 | a server failure changes nothing but the loading flag |
| AdminDashboard.FailedExperienceSubmitKeepsState | app/admin/page.tsx:233-241 | a server failure changes nothing but the loading flag |
| AdminDashboard.FailedMediaSubmitKeepsState | app/admin/page.tsx:374-382 | a server failure changes nothing but the loading flag |
| AdminDashboard.FailedVitaeSubmitKeepsState | app/admin/page.tsx:425-433 | a server failure changes nothing but the loading flag |
| AdminDashboard.FailedEmailSubmitKeepsState | app/admin/page.tsx:470-479 | a server failure changes nothing but the loading flag |
| AdminDashboard.ConfirmDeleteRemovesOnlyTarget | app/admin/page.tsx:553-591 | a confirmed deletion removes exactly the items with the target id from the list of its kind and no other list changes; a failed one changes no list |
| AdminDashboard.Dashboard.constructor | app/admin/page.tsx:35-57 | empty lists, empty forms, nothing edited or pending, not loading |
| AdminDashboard.Dashboard.SubmitProject | app/admin/page.tsx:153-193 | the new state and toast are those of `ProjectSubmit` |
| AdminDashboard.Dashboard.SendProject | app/admin/page.tsx:159-192 | the new state and toast are those of `ProjectAnswered` |
| AdminDashboard.Dashboard.SubmitExperience | app/admin/page.tsx:195-242 | the new state and toast are those of `ExperienceSubmit` |
| AdminDashboard.Dashboard.SendExperience | app/admin/page.tsx:218-241 | the new state and toast are those of `ExperienceAnswered` |
| AdminDashboard.Dashboard.SubmitMedia | app/admin/page.tsx:244-384 | the new state and toast are those of `MediaSubmit` |
| AdminDashboard.Dashboard.SendMedia | app/admin/page.tsx:334-384 | the new state and toast are those of `MediaAnswered` |
| AdminDashboard.Dashboard.SubmitVitae | app/admin/page.tsx:386-434 | the new state and toast are those of `VitaeSubmit` |
| AdminDashboard.Dashboard.SendVitae | app/admin/page.tsx:407-433 | the new state and toast are those of `VitaeAnswered` |
| AdminDashboard.Dashboard.SubmitEmail | app/admin/page.tsx:436-480 | the new state and toast are those of `EmailSubmit` |
| AdminDashboard.Dashboard.SendEmail | app/admin/page.tsx:446-479 | the new state and toast are those of `EmailAnswered` |
| AdminDashboard.Dashboard.AskDelete | app/admin/page.tsx:529-551 | the new state is that of `RequestDelete` |
| AdminDashboard.Dashboard.Confirm | app/admin/page.tsx:553-591 | the new state and toast are those of `ConfirmDelete` |
| AdminDashboard.Dashboard.RemoveItem | app/admin/page.tsx:562-580 | the new state is the old one with the items of the given id filtered out of the list of the given kind |
| AdminDashboard.Dashboard.CheckSoftware | app/admin/page.tsx:727-737 | the new state is that of `SoftwareChecked` |
| AdminDashboard.Dashboard.RemoveSoftwareChip | app/admin/page.tsx:755-760 | the new state is that of `ChipRemoved` |
| Faq.Toggled | components/FAQ.tsx:88-96 | an open answer closes, a closed one opens, every other answer is unaffected |
| Faq.ToggleTwice | components/FAQ.tsx:88-96 | toggling twice restores the set |
| Faq.SortByRecency | components/FAQ.tsx:101-105 | the array ends ordered from most to least recent and is a permutation of what it held |
| Faq.InsertLeft | components/FAQ.tsx:101-105 | moves one entry into an ordered prefix, keeping it ordered and keeping the multiset |
| Faq.SwapDown | components/FAQ.tsx:101-105 | exchanges two neighbours and nothing else, keeping the multiset |
| Faq.FirstIsLatest | components/FAQ.tsx:98-106 | the head of a descending permutation is a most recent entry of the original list |
| Faq.DownloadUrl | components/FAQ.tsx:124-130 | a URL lacking "cloudinary.com" or "/raw/upload/" is unchanged |
| Faq.DownloadUrlInsertsFlag | components/FAQ.tsx:124-130 | otherwise "fl_attachment/" is inserted right after the first "/raw/upload/", and removing it gives back the URL |
| Faq.Sanitized | components/FAQ.tsx:144 | same length; each character outside letters, digits, "_" and "-" becomes "_" |
| Faq.DownloadName | components/FAQ.tsx:160 | the sanitised name followed by ".pdf", every name character safe |
| Faq.SanitizedKeepsSafeNames | components/FAQ.tsx:144 | a safe name is unchanged and sanitising is idempotent |
| Faq.FaqSection.constructor | components/FAQ.tsx:24-27 | the CV answer (1) is open, no CV loaded, not downloading |
| Faq.FaqSection.ToggleItem | components/FAQ.tsx:88-96 | the open set becomes its toggle; nothing else changes |
| Faq.FaqSection.Load | components/FAQ.tsx:30-47 | the loaded list is exactly what the route returned |
| Faq.FaqSection.LatestVitae | components/FAQ.tsx:98-106 | nothing for an empty list; otherwise the array is sorted in place and its head is a most recent CV |
| Faq.FaqSection.Download | components/FAQ.tsx:108-187 | with no CV an error and no attempt; otherwise the latest CV is fetched from its rewritten URL under its sanitised name, and downloading ends |
| ContactForm.WithField | components/ContactForm.tsx:83-85 | exactly the named field takes the new value |
| ContactForm.Submitted | components/ContactForm.tsx:87-126 | a request is sent iff all fields are filled and the address is valid; refusals keep the form with their message; the form is only ever kept or emptied, and emptied only on success |
| ContactForm.SubmitResetsOnlyOnDelivery | components/ContactForm.tsx:111-122 | a delivered message empties all seven fields; a failure keeps them and reports an error |
| ContactForm.SentFormsAreAccepted | components/ContactForm.tsx:87-110 | every form the page sends is stored by the messages route when the write succeeds |
| ContactForm.ContactFormState.constructor | components/ContactForm.tsx:22-31 | all fields empty, not loading |
| ContactForm.ContactFormState.HandleInputChange | components/ContactForm.tsx:83-85 | only the named field changes |
| ContactForm.ContactFormState.HandleSubmit | components/ContactForm.tsx:87-126 | the new form and feedback are those of `Submitted`; loading is always lowered after a request |
| PageLoad.Listing | app/projects/page.tsx:128-135 | a listing is used iff the reply was ok, marked success and carried data |
| PageLoad.LoadError | app/projects/page.tsx:128-153 | no error iff a listing is used; otherwise the status message, the thrown message or the invalid-data message |
| PageLoad.Prefix | app/projects/page.tsx:138 | the first n items, in order |
| ProjectsPage.Enriched | app/projects/page.tsx:138-146 | the first four projects in order; item i takes gradient and icon from style i mod 4 and the technologies from its softwares, or the placeholder pair |
| ProjectsPage.Originals | app/projects/page.tsx:138-146 | the records behind the cards, in order |
| ProjectsPage.EnrichedKeepsFirstFour | app/projects/page.tsx:138 | the cards' records are exactly the first four projects |
| ProjectsPage.EnrichedCardsDiffer | app/projects/page.tsx:139-145 | every card lists a technology and no two cards share a gradient |
| ProjectsPage.ProjectsView.constructor | app/projects/page.tsx:122-157 | no projects, loading, no error |
| ProjectsPage.ProjectsView.FetchProjects | app/projects/page.tsx:122-157 | the error is `LoadError`; a used listing becomes the enriched cards, otherwise the cards are kept; loading ends |
| ExperiencesPage.Enriched | app/experiences/page.tsx:111-124 | every experience in order, titled by its name and described by its subject, with style i mod 7 |
| ExperiencesPage.Originals | app/experiences/page.tsx:111-124 | the records behind the cards, in order |
| ExperiencesPage.EnrichedKeepsAll | app/experiences/page.tsx:111 | the cards' records are exactly the listing |
| ExperiencesPage.StylesCycle | app/experiences/page.tsx:112-123 | styles repeat every seven cards and seven neighbouring cards never share a category |
| ExperiencesPage.ExperiencesView.constructor | app/experiences/page.tsx:95-135 | no experiences, loading, no error |
| ExperiencesPage.ExperiencesView.FetchExperiences | app/experiences/page.tsx:95-135 | the error is `LoadError`; a used listing becomes the enriched cards, otherwise the cards are kept; loading ends |
| PortfolioShowcase.Enriched | components/PortfolioShowcase.tsx:58-67 | the first four projects in order; item i takes colour, background and mockups from style i mod 4 and tags from its softwares, or the placeholder pair |
| PortfolioShowcase.Originals | components/PortfolioShowcase.tsx:58-67 | the records behind the cards, in order |
| PortfolioShowcase.EnrichedKeepsFirstFour | components/PortfolioShowcase.tsx:58 | the cards' records are exactly the first four projects |
| PortfolioShowcase.ShowcaseCardsDiffer | components/PortfolioShowcase.tsx:59-66 | every card has a tag and at least three mockups, and no two cards share a colour |
| PortfolioShowcase.ShowcaseView.constructor | components/PortfolioShowcase.tsx:42-78 | no projects, loading, no error |
| PortfolioShowcase.ShowcaseView.FetchProjects | components/PortfolioShowcase.tsx:42-78 | the error is `LoadError`; a used listing becomes the enriched cards, otherwise the cards are kept; loading ends |
| ExperiencePage.Enriched | components/ExperiencePage.tsx:110-120 | the first four projects in order with style i mod 7, the category being the first software when non-empty and the style's otherwise |
| ExperiencePage.Originals | components/ExperiencePage.tsx:110-120 | the records behind the cards, in order |
| ExperiencePage.EnrichedKeepsFirstFour | components/ExperiencePage.tsx:110 | the cards' records are exactly the first four projects |
| ExperiencePage.CardsUseFirstStyles | components/ExperiencePage.tsx:111-119 | card i uses style i, so only four styles ever show, and no category is empty |
| ExperiencePage.ExperienceView.constructor | components/ExperiencePage.tsx:95-129 | no projects, loading, no error |
| ExperiencePage.ExperienceView.FetchProjects | components/ExperiencePage.tsx:95-129 | the error is `LoadError`; a used listing becomes the enriched cards, otherwise the cards are kept; loading ends |
| Carousel.Next | components/Section1.tsx:71-73 | stays in range, steps to the following index and wraps from the last to 0 |
| Carousel.Prev | components/Section1.tsx:75-77 | stays in range, steps to the preceding index and wraps from 0 to the last |
| Carousel.PrevUndoesNext | components/Section1.tsx:71-77 | a step back undoes a step forward and the other way round |
| Carousel.Advanced | components/Section1.tsx:35-40 | k forward steps stay in range |
| Carousel.AdvancedIsModular | components/Section1.tsx:35-40 | k forward steps from i land on (i + k) mod n |
| Carousel.EveryEntryIsReached | components/Section1.tsx:35-40 | every slide is reached in fewer than n steps, and n steps return to the start |
| Section1.Submitted | components/Section1.tsx:42-69 | a request is sent iff the field is non-empty; success empties it and thanks; failure keeps it and shows the route's error, the default or the thrown message |
| Section1.MalformedAddressReachesRoute | components/Section1.tsx:42-69 | a malformed non-empty address is posted, the route changes nothing and the visitor sees its e-mail error |
| Section1.Hero.constructor | components/Section1.tsx:10-12 | empty field, first slide, not loading |
| Section1.Hero.NextSlide | components/Section1.tsx:71-73 | the slide index steps forward modulo 3; nothing else changes |
| Section1.Hero.PrevSlide | components/Section1.tsx:75-77 | the slide index steps back modulo 3; nothing else changes |
| Section1.Hero.Tick | components/Section1.tsx:35-40 | the timer tick is the forward step |
| Section1.Hero.GoToSlide | components/Section1.tsx:293-305 | the dot's slide becomes current |
| Section1.Hero.SetEmail | components/Section1.tsx:186 | only the address field changes |
| Section1.Hero.HandleSubmit | components/Section1.tsx:42-69 | the field and toast are those of `Submitted`; loading is lowered after every request and the slide is kept |
| ClientTestimonials.SideIndex | components/ClientTestimonials.tsx:157-184 | the side card's index is in range |
| ClientTestimonials.SideCardDiffers | components/ClientTestimonials.tsx:157-184 | the side card is the next one and never the front card |
| ClientTestimonials.Stars | components/ClientTestimonials.tsx:77-85 | five stars, star i filled iff i is below the whole part of the rating |
| ClientTestimonials.FilledStars | components/ClientTestimonials.tsx:77-85 | filled stars come first and number min(whole rating, 5) |
| ClientTestimonials.TestimonialCarousel.constructor | components/ClientTestimonials.tsx:63 | the first testimonial is shown |
| ClientTestimonials.TestimonialCarousel.NextTestimonial | components/ClientTestimonials.tsx:65-67 | the index steps forward modulo 4 |
| ClientTestimonials.TestimonialCarousel.PrevTestimonial | components/ClientTestimonials.tsx:69-71 | the index steps back modulo 4 |
| ClientTestimonials.TestimonialCarousel.GoToTestimonial | components/ClientTestimonials.tsx:73-75 | the dot's testimonial becomes current |
| MediaPage.Slot | app/media/page.tsx:21-24 | each video has its own element slot |
| MediaPage.Paused | app/media/page.tsx:58-61 | a mounted element is paused and otherwise unchanged |
| MediaPage.PlayToggled | app/media/page.tsx:47-63 | the elements keep their number |
| MediaPage.MuteToggled | app/media/page.tsx:65-74 | the elements keep their number |
| MediaPage.Rewound | app/media/page.tsx:76-82 | the elements keep their number |
| MediaPage.ExclusivePlayback | app/media/page.tsx:47-63 | in a consistent gallery at most one mounted video plays |
| MediaPage.TogglePlayKeepsConsistent | app/media/page.tsx:47-63 | toggling play keeps the gallery consistent, and `playingVideo` names the playing video |
| MediaPage.TogglePlayIsExclusive | app/media/page.tsx:50-61 | playing a paused video pauses every other; pausing a playing one leaves none playing |
| MediaPage.ToggleMuteKeepsConsistent | app/media/page.tsx:65-74 | flipping the element's muted flag keeps `mutedStates` mirroring the elements |
| MediaPage.ToggleMuteTwice | app/media/page.tsx:65-74 | muting twice restores the elements and the recorded states |
| MediaPage.RewindKeepsConsistent | app/media/page.tsx:76-82 | rewinding keeps the gallery consistent |
| MediaPage.EndedKeepsConsistent | app/media/page.tsx:112 | an ended video is paused, nothing plays and consistency is kept |
| MediaPage.Gallery.constructor | app/media/page.tsx:11-24 | nothing playing, both videos muted with progress 0 |
| MediaPage.Gallery.TogglePlay | app/media/page.tsx:47-63 | the elements become `PlayToggled` of the old ones, pausing the others in a loop, and `playingVideo` follows |
| MediaPage.Gallery.ToggleMute | app/media/page.tsx:65-74 | the elements become `MuteToggled`, the video's muted state mirrors its element, and the other entry is kept |
| MediaPage.Gallery.ResetVideo | app/media/page.tsx:76-82 | the element is rewound and its progress set to 0, the other entry kept |
| MediaPage.Gallery.Ended | app/media/page.tsx:112 | the video is paused and nothing is playing |

## Left out

- The GET listings of the content routes, and their conversion of store timestamps to ISO text. Timestamps are opaque integers.
- `Promise.race` timeouts and the 2-second sleep between title-check retries: only the retry count and the outcome of each attempt are modelled.
- The API-level `setTimeout` in the media route (app/api/media/route.ts:223-225, 394-396): it throws inside a callback and has no effect on the reply.
- `Promise.all` in the media route: the upload and title check, and the record and file deletions, are modelled as both completing, each with its own outcome.
- The media route's own `extractPublicIdFromUrl` (app/api/media/route.ts:13-22): nothing in that file calls it.
- Point reads (`getDoc`) are assumed to succeed; their failure is not modelled.
- Unreadable request bodies and multipart forms are a single `parsed` flag. The projects `softwares` field is absent, unparsable or a list of names; element types inside the JSON are not modelled.
- Absent text form fields are modelled as the empty string.
- MediaRoute.UploadFailureStatus: the classifier's 502 branch is not reachable from upload errors and is covered only by `ClassifyErrorOrder`.
- ProjectsRoute.PutRewritesOnlyOnSuccess: the reply of the projects edit lacks `createdAt`; the record's creation time is stated, not the exact shape of that reply.
- `Text` uses a fixed ASCII whitespace set for `\s` and `trim`, and ASCII case mapping for `toLowerCase`; Unicode whitespace and case folding are not modelled.
- Faq.Sanitized: Dafny characters are Unicode scalar values, while JavaScript's `replace` works on UTF-16 code units. A character outside the Basic Multilingual Plane therefore becomes two underscores in the source and one in the model, and the source keeps the length only in code units.
- Reply fields other than status, `success`, `error` and `data`: the `message` texts of successful replies (the DELETE confirmations of the CV and projects routes, the `{message}` bodies of the subscribe, newsletter and messages routes) and the `details` field of the media route's error reply (app/api/media/route.ts:383-386). No modelled client reads them.
- Sending the newsletter notification e-mail is a foreign call; only its outcome is an input, proved not to matter.
- Floating-point values: video progress percentages, the megabyte display of file sizes, and fractional ratings. Ratings are integer tenths, so the whole part is `rating10 / 10`.
- Browser download mechanics in the FAQ (fetching the blob, the anchor element, the fallback link and `window.open`) and the date formatting of the last update: the model stops at the URL and file name the download uses.
- The FAQ's fetch of the CV list: the list the route returns is an input to `Load`.
- Faq.SortByRecency: calendar parsing of the date strings is not modelled; the recency key is an integer taken from `updatedAt`, else `createdAt`, else 0.
- The admin page's `localStorage` gate (components/AdminContext.tsx is not part of this model).
- The HTTP transport between the admin page and the routes: each side is modelled on its own, with the server's answer as an input to the page. The page's reading of an answer is not tied to the route's reply: the page keeps the whole `{success, data}` envelope of the projects, experiences and CV routes (app/admin/page.tsx:173-179, 223-229, 415-421), and reads an `id` that the subscribe POST does not send (app/api/subscribe/route.ts:24, app/admin/page.tsx:461).
- AdminDashboard.MediaSubmit: the "unexpected server response" branch is folded into a server error with its message.
- The admin page's `handleEdit…` functions, which only copy a record into a form, and its initial `fetchData`.
- The intermediate `isLoading = true` between a submit and its answer is not observable in the model.
- Rejection of `video.play()` is ignored, as in the source.
- Video elements are values in an array indexed by video: two refs never alias.
- `setInterval` scheduling: a tick is the step it performs.
- TypeErrors in the enrichment maps: `softwares` is always a list in the records.
- Fullscreen toggling, hover state and icons, which are named by their component.
- The static presentational components and pages, and next.config.ts.
