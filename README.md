# Campaign assistant: a verified model of its core logic

This project models, in Dafny, the logic of a Korean election-campaign assistant. The assistant has four parts:

- a FastAPI backend that issues signed URLs for campaign proof files;
- a Next.js web app for candidates, administrators and viewers;
- a React Native mobile app;
- an older root-level mobile app.

Everything it models is deterministic. That covers:

- the backend's ownership check on a signed-URL request, and the shared storage path builder it pairs with;
- the web middleware's route-to-role table, public-route matcher and redirect choice, and the client-side permission table;
- the client stores for broadcasts, templates, education, proofs, policies, documents, the dashboard, the profile, settings and manual schedules. Each is a class whose methods change its fields. Its getters are pure functions;
- the validators and formatters: phone masking, profile completeness, time-of-day slots, breadcrumbs and upload validation;
- the state logic inside pages: the cart, the checklist, the voter CRM, the senior home screen and the onboarding step machine.

Clocks, `confirm()` answers and generated ids are parameters. Timestamps are integers. Font scales are integer tenths (8 to 14 stand for 0.8 to 1.4). `Math.round` of a ratio is integer rounding with halves going up. A division by zero that yields `NaN` is the `NaN` case of `Numbers.Num`.

The shared modules are:

- `Seqs`: JavaScript array idioms (`filter`, `includes`, toggle, move-to-front with a cap, `slice(0, n)`, `find`, `reduce`);
- `Strs`: `split`, `join`, `startsWith`, `includes`, `toLowerCase` restricted to ASCII letters, string order by code point, `String(n)`;
- `Sorting`: the stable `Array.prototype.sort`, as insertion sort over a total preorder;
- `Numbers`: `Math.round(p / q)` as `RoundDiv`;
- `TimeOfDay`: `parseInt(text, 10)` and `padStart(2, '0')`.

## Model

| member | source | states |
|---|---|---|
| StoragePath.ProofPath | packages/shared/storage.ts:2-5 | the path is `userId/taskId/fileName`: its length is the three lengths plus 2, it starts with `userId/`, and the rest is `taskId/fileName` |
| StoragePath.ProofPathSplit | packages/shared/storage.ts:4 | when no component contains `/`, splitting the path at `/` gives back exactly the three components |
| StoragePath.ProofPathOwner | packages/shared/storage.ts:4 | when the user id has no `/`, the text before the first `/` of the path is the user id |
| SignedUrl.MakeReq | apps/backend/routes/proofs.py:12-15 | a request keeps path and user id; an omitted ttl is 600 |
| SignedUrl.Owner | apps/backend/routes/proofs.py:20 | the owner segment is a prefix of the path without `/`, followed by `/` when shorter, and the whole path when it has no `/` |
| SignedUrl.CreateSignedUrl | apps/backend/routes/proofs.py:18-27 | a foreign owner segment gives 403 "path not owned by user" with no provider call; otherwise exactly one call on bucket "proofs" with the path and ttl unchanged, a provider error becomes 400 with its message, and a success is returned unmodified |
| SignedUrl.DecisionIgnoresSuffix | apps/backend/routes/proofs.py:20-22 | whether a request is refused depends only on the owner segment and the user id, not on the rest of the path or on the provider |
| SignedUrl.RefusalIndependentOfProvider | apps/backend/routes/proofs.py:21-22 | a refused request gives the same answer whatever the provider, and calls it never |
| SignedUrl.ProofPathAccepted | apps/backend/routes/proofs.py:20-24 | a path built by `proofPath` for user u is accepted for u and forwarded unchanged to the provider |
| SignedUrl.ProofPathRefusedForOthers | apps/backend/routes/proofs.py:20-22 | a path built for user u is refused for any other user |
| SignedUrl.SlashUserRefused | apps/backend/routes/proofs.py:20-22 | a user id containing `/` is refused even for its own `proofPath` |
| Auth.UseRole | apps/web/app/lib/auth.tsx:21-29 | a list of roles means membership, a single role means equality, and no role never passes |
| Auth.UseRoleSingleton | apps/web/app/lib/auth.tsx:24-28 | requiring one role is the same as requiring the list holding only that role |
| Auth.WithAuth | apps/web/app/lib/auth.tsx:72-99 | the wrapped page renders exactly when authenticated and either no roles are required or the role matches; loading and signed-out sessions get their own views |
| Auth.HasRequiredRole | apps/web/app/lib/auth.tsx:87-95 | the guard's inline role test agrees with `useRole` |
| Auth.CanByClass | apps/web/app/lib/auth.tsx:102-117 | the view and manage-user, manage-candidate, approve-proof, create-broadcast, audit-log and settings permissions hold iff admin; the view candidate, proof and broadcast permissions iff admin or viewer; own profile and chat iff some role; own tasks and education iff candidate; and every permission is in one of these classes |
| Auth.NoRoleNoPermission | apps/web/app/lib/auth.tsx:102-117 | with no role, no permission holds |
| Auth.ViewerBelowAdmin | apps/web/app/lib/auth.tsx:102-117 | whatever a viewer may do, an admin may do |
| Auth.ViewerCannotManage | apps/web/app/lib/auth.tsx:103-116 | admin-only permissions are denied to viewers and candidates |
| Middleware.PublicIffRooted | apps/web/middleware.ts:109-116 | as written, a path is public exactly when it starts with `/`, because the route `/` ends with `/` and so matches every such path by prefix |
| Middleware.FirstRule | apps/web/middleware.ts:99-103 | the first table entry whose route equals the path or is a `route/` prefix of it, and none when no entry covers the path |
| Middleware.ExactRule | apps/web/middleware.ts:94-96 | the table entry whose route is exactly the path, and none when there is none |
| Middleware.TableShape | apps/web/middleware.ts:6-23 | every route of the role table is one `/`-segment and no route appears twice |
| Middleware.CoverIsOwnRule | apps/web/middleware.ts:99-103 | a table route followed by nothing or by `/…` is covered by its own entry only |
| Middleware.RolesForPrecedence | apps/web/middleware.ts:87-107 | public paths need no role; otherwise an exact entry wins, then the first covering entry, then all three roles; so a non-public path never needs the empty list |
| Middleware.GetRoleForPath | apps/web/middleware.ts:87-107 | as written, every path starting with `/` needs no role |
| Middleware.RedirectTarget | apps/web/middleware.ts:57-64 | a refused candidate goes to `/dashboard`, admin and viewer to `/candidates`, and no role to `/auth/login` |
| Middleware.Decide | apps/web/middleware.ts:51-68 | the request proceeds iff no roles are required or the user's role is among them; otherwise it is redirected to the role's target |
| Middleware.Middleware | apps/web/middleware.ts:41-69 | as written, a request proceeds iff the path needs no role or the user holds one of its roles, and is otherwise redirected to the role's target |
| Middleware.MiddlewareAlwaysNext | apps/web/middleware.ts:41-69 | as written, every request whose path starts with `/` proceeds, whatever the role |
| Middleware.ViewerReachesDashboard | apps/web/middleware.ts:41-69 | as written, a viewer reaches `/dashboard`, and a request without a role reaches `/dashboard/settings` |
| Middleware.Authorized | apps/web/middleware.ts:72-82 | the `authorized` callback passes public paths and otherwise needs a token; as written, this means every path starting with `/` passes |
| Middleware.PublicTableApart | apps/web/middleware.ts:6-38 | every public route other than `/` differs from every table route in one of the two characters after the leading `/`, so none of them covers a table route |
| Middleware.TableRoutesNotPublic | apps/web/middleware.ts:109-116 | with the root matched exactly, no table route or sub-path of one is public |
| Middleware.IsPublicRouteFixed | apps/web/middleware.ts:109-116 | corrected: a path is public when it is the root page itself or another public route matches it |
| Middleware.GetRoleForPathFixed | apps/web/middleware.ts:87-107 | corrected: no role for a public path, else the roles of the first covering table entry, else every role |
| Middleware.MiddlewareFixed | apps/web/middleware.ts:41-69 | corrected: the root page is open; elsewhere a user without a required role is redirected to the role's target |
| Middleware.FixedTableApplies | apps/web/middleware.ts:87-107 | with the root matched exactly, a table route and its sub-paths need that entry's roles |
| Middleware.FixedViewerRedirected | apps/web/middleware.ts:41-69 | with the root matched exactly, a viewer at `/dashboard` goes to `/candidates`, no role at `/dashboard/settings` goes to `/auth/login`, and `/` still proceeds |
| Broadcasts.Ids | apps/web/app/store/broadcasts.ts:477 | the id list has one entry per announcement, in order |
| Broadcasts.MarkRead | apps/web/app/store/broadcasts.ts:466-470 | the list keeps its length; announcements with the id become read, all others are unchanged |
| Broadcasts.MarkAllRead | apps/web/app/store/broadcasts.ts:478 | the list keeps its length and every announcement becomes read, nothing else changing |
| Broadcasts.ToggleFlags | apps/web/app/store/broadcasts.ts:488-492 | the list keeps its length; announcements with the id are bookmarked exactly when the id was not in the bookmark list, all others are unchanged |
| Broadcasts.IncrementViews | apps/web/app/store/broadcasts.ts:498-506 | the list keeps its length; announcements with the id gain one view, all others are unchanged |
| Broadcasts.MarkReadSynced | apps/web/app/store/broadcasts.ts:462-473 | `markAsRead` flags exactly the announcements with that id (others keep their flag), adds the id to the read list only if absent, keeps the ids, and keeps the read and bookmark lists in step with the flags |
| Broadcasts.UnreadCount | apps/web/app/store/broadcasts.ts:566-569 | the count is the number of unread announcements (the length of the unread filter), at most the number of announcements, and zero exactly when every announcement is read |
| Broadcasts.MarkAllReadFacts | apps/web/app/store/broadcasts.ts:475-480 | after `markAllAsRead` the read list is every id, the flags agree with it, the ids are kept, and nothing is unread |
| Broadcasts.ToggleSynced | apps/web/app/store/broadcasts.ts:482-496 | `toggleBookmark` keeps the bookmark list and the flags in step and keeps the ids |
| Broadcasts.ToggleTwiceRestores | apps/web/app/store/broadcasts.ts:482-496 | toggling a bookmark twice restores the announcements and the bookmark set, and restores the list itself when the id was absent |
| Broadcasts.IncrementViewsTotal | apps/web/app/store/broadcasts.ts:498-506 | the view counts of exactly the announcements with that id rise by one, so the total rises by the number of such announcements |
| Broadcasts.ComparatorsTotal | apps/web/app/store/broadcasts.ts:557-575 | the priority-then-newer order and the priority order are total preorders, so the stable sort is well defined |
| Broadcasts.FilteredBroadcasts | apps/web/app/store/broadcasts.ts:540-564 | the result is a permutation of the announcements passing every active filter, and is ordered by priority descending, then by publication time descending |
| Broadcasts.ClearedFiltersKeepAll | apps/web/app/store/broadcasts.ts:527-556 | with the cleared filters, the filtered list is a permutation of all announcements |
| Broadcasts.CriticalBroadcasts | apps/web/app/store/broadcasts.ts:571-576 | exactly the critical and urgent announcements, as a permutation of them, with priority descending |
| Broadcasts.AllCategoriesListed | apps/web/app/store/broadcasts.ts:580 | the category list names every category |
| Broadcasts.ByCategory | apps/web/app/store/broadcasts.ts:578-586 | the grouping has an entry for every category |
| Broadcasts.ByCategoryPartition | apps/web/app/store/broadcasts.ts:578-586 | each announcement is in the group of its own category and of no other, each group holds only announcements of that category, and the group sizes add up to the number of announcements |
| Broadcasts.CategorySizes | apps/web/app/store/broadcasts.ts:582-585 | the per-category filters together count every announcement once |
| Broadcasts.BroadcastsStore.constructor | apps/web/app/store/broadcasts.ts:440-451 | the initial state: the bundled announcements, cleared filters, nothing selected, and the initial read and bookmark lists, in step with the flags |
| Broadcasts.BroadcastsStore.MarkAsRead | apps/web/app/store/broadcasts.ts:462-473 | the new announcements and read list are those of `markAsRead`; everything else is unchanged and the store invariant holds |
| Broadcasts.BroadcastsStore.MarkAllAsRead | apps/web/app/store/broadcasts.ts:475-480 | every announcement is read and the read list is every id; the invariant holds |
| Broadcasts.BroadcastsStore.ToggleBookmark | apps/web/app/store/broadcasts.ts:482-496 | the bookmark list toggles the id, the matching flags follow it, and the invariant holds |
| Broadcasts.BroadcastsStore.IncrementViewCount | apps/web/app/store/broadcasts.ts:498-506 | only the matching view counts change |
| Broadcasts.BroadcastsStore.SetSelectedBroadcast | apps/web/app/store/broadcasts.ts:454-460 | selecting an announcement counts a view and marks it read before storing the selection; clearing the selection changes nothing else |
| Broadcasts.BroadcastsStore.ClearFilters | apps/web/app/store/broadcasts.ts:527-537 | the filters return to their initial values and nothing else changes |
| Templates.CountDownloadEffect | apps/web/app/store/templates.ts:422-426 | only the download counts of templates with that id rise, by one each, and the total rises by their number |
| Templates.CountDownload | apps/web/app/store/templates.ts:422-426 | the list keeps its length; templates with the id gain one download, all others are unchanged |
| Templates.FilteredTemplates | apps/web/app/store/templates.ts:479-491 | exactly the templates passing every active filter, in their order; with no filter, all templates |
| Templates.FilteredTemplatesOrder | apps/web/app/store/templates.ts:482-490 | filtering distributes over concatenation, so the relative order is kept |
| Templates.AllCategoriesListed | apps/web/app/store/templates.ts:495 | the category list names every category |
| Templates.ByCategory | apps/web/app/store/templates.ts:493-501 | the grouping has an entry for every category |
| Templates.ByCategoryPartition | apps/web/app/store/templates.ts:493-501 | each template is in the group of its own category only, and the group sizes add up to the number of templates |
| Templates.CategorySizes | apps/web/app/store/templates.ts:497-500 | the per-category filters together count every template once |
| Templates.ComparatorsTotal | apps/web/app/store/templates.ts:507-522 | the download order and the score order are total preorders |
| Templates.PopularTemplates | apps/web/app/store/templates.ts:503-509 | a prefix of all popular templates sorted by downloads descending, as long as `slice(0, limit)` makes it: min(5, popular) when omitted, min(limit, popular) for a nonnegative limit, popular + limit (at least 0) for a negative one |
| Templates.PopularTemplatesTop | apps/web/app/store/templates.ts:503-509 | no popular template left out has more downloads than one listed |
| Templates.RecommendedTemplates | apps/web/app/store/templates.ts:511-524 | at most four templates, none of them in the download history, with the score (rating, times 1.2 when popular) descending |
| Templates.GuidelinesFor | apps/web/app/store/templates.ts:526-531 | exactly the guidelines of that category or of the general category |
| Templates.GeneralAlwaysListed | apps/web/app/store/templates.ts:528-530 | a general guideline is listed for every category |
| Templates.TemplatesStore.constructor | apps/web/app/store/templates.ts:406-416 | the bundled templates and guidelines, cleared filters, and empty history and favourites |
| Templates.TemplatesStore.DownloadTemplate | apps/web/app/store/templates.ts:419-428 | the id moves to the front of the history, appears there once, the history keeps at most 50 ids, and the template's download count rises |
| Templates.TemplatesStore.ToggleFavorite | apps/web/app/store/templates.ts:430-439 | the id is a favourite afterwards exactly when it was not before; nothing else changes |
| Templates.TemplatesStore.ClearFilters | apps/web/app/store/templates.ts:467-476 | the filters return to their initial values and nothing else changes |
| Education.Complete | apps/web/app/store/education.ts:430-441 | the contents with that id become completed with the given progress (100 when omitted); all others are unchanged |
| Education.SetProgress | apps/web/app/store/education.ts:443-451 | the list keeps its length; contents with the id take the new progress, all others are unchanged |
| Education.IncrementViews | apps/web/app/store/education.ts:453-461 | the list keeps its length; contents with the id gain one view, all others are unchanged |
| Education.CompleteSynced | apps/web/app/store/education.ts:430-441 | completing keeps the completed list and the completed flags in step, and the id appears in the list exactly once |
| Education.SetProgressEffect | apps/web/app/store/education.ts:443-451 | only the matching contents change, and only in progress; the completed flags stay in step |
| Education.IncrementViewsEffect | apps/web/app/store/education.ts:453-461 | only the matching view counts rise, by one |
| Education.FilteredContents | apps/web/app/store/education.ts:503-515 | exactly the contents passing every active filter, in their order; with no filter, all contents |
| Education.RequiredThenRatingTotal | apps/web/app/store/education.ts:537-542 | required-first-then-rating is a total preorder |
| Education.RecommendedContent | apps/web/app/store/education.ts:527-544 | the first min(5, n) of the n eligible contents (not completed, with no prerequisites or some completed prerequisite) sorted required-first and then by rating descending, as `slice(0, 5)` of the stable sort gives |
| Education.RecommendedContentComplete | apps/web/app/store/education.ts:527-544 | when fewer than five are recommended, every eligible content is recommended |
| Education.RecommendedContentTop | apps/web/app/store/education.ts:527-544 | an eligible content left out ranks no higher, required-first then by rating, than every recommended content |
| Education.PathProgress | apps/web/app/store/education.ts:552-556 | an empty path gives `NaN`; otherwise the integer nearest to 100 k / n (halves up), for n contents of which k are completed, hence from 0 to 100, 100 when all are completed and 0 when none is |
| Education.LearningPathProgress | apps/web/app/store/education.ts:546-557 | an unknown path gives 0; otherwise the progress of the first path with that id |
| Education.EducationStore.constructor | apps/web/app/store/education.ts:409-420 | the bundled contents and paths, nothing current, empty completed and bookmark lists, cleared filters |
| Education.EducationStore.MarkContentCompleted | apps/web/app/store/education.ts:430-441 | the id is in the completed list exactly once and the contents are those of `Complete`; the invariant holds |
| Education.EducationStore.UpdateContentProgress | apps/web/app/store/education.ts:443-451 | only the matching progress values change |
| Education.EducationStore.IncrementViewCount | apps/web/app/store/education.ts:453-461 | only the matching view counts change |
| Education.EducationStore.SetCurrentContent | apps/web/app/store/education.ts:423-428 | selecting a content counts a view first; clearing it changes no contents |
| Education.EducationStore.ToggleBookmark | apps/web/app/store/education.ts:464-473 | the id is bookmarked afterwards exactly when it was not before |
| Education.EducationStore.ClearFilters | apps/web/app/store/education.ts:491-500 | the filters return to their initial values and nothing else changes |
| ProofsStore.ApplyPatch | apps/web/app/store/proofs.ts:270-276 | each field given in the patch replaces the form's field; the others are kept |
| ProofsStore.ApplyPatchIdempotent | apps/web/app/store/proofs.ts:270-276 | applying the same patch twice is applying it once, and an empty patch changes nothing |
| ProofsStore.OrNone | apps/web/app/store/proofs.ts:376-377 | an empty or missing URL becomes missing; any other URL is kept |
| ProofsStore.ProofId | apps/web/app/store/proofs.ts:361 | the id is `proof-` followed by a non-empty suffix (the clock in decimal) |
| ProofsStore.NewProof | apps/web/app/store/proofs.ts:369-392 | a new proof is pending, carries the wizard's form fields, file name, preview URL (empty counts as missing), location and upload time, and has no review data |
| ProofsStore.WithStatus | apps/web/app/store/proofs.ts:406-415 | the status is set; the completion time is set only when completed, the rejection time only when rejected; non-empty notes replace the old notes; nothing else changes |
| ProofsStore.UpdateStatus | apps/web/app/store/proofs.ts:404-417 | the list keeps its length; proofs with the id take the new status as `WithStatus` sets it, all others are unchanged |
| ProofsStore.Delete | apps/web/app/store/proofs.ts:419-422 | exactly the proofs with other ids remain |
| ProofsStore.DeleteKeepsOrder | apps/web/app/store/proofs.ts:421 | deleting distributes over concatenation, so the order is kept, and a list without that id is unchanged |
| ProofsStore.InProgressRoundTrip | apps/web/app/store/proofs.ts:441-449 | adding an id to the in-progress list and removing it again leaves the list as it was without the id, and exactly as it was when the id was absent |
| ProofsStore.ProofsStore.constructor | apps/web/app/store/proofs.ts:218-242 | the bundled proofs, the initial wizard, nothing uploading, all filters off |
| ProofsStore.ProofsStore.SetWizardStep | apps/web/app/store/proofs.ts:245-248 | only the wizard's step changes |
| ProofsStore.ProofsStore.SetSelectedFile | apps/web/app/store/proofs.ts:250-253 | only the wizard's file changes |
| ProofsStore.ProofsStore.SetCapturedLocation | apps/web/app/store/proofs.ts:255-258 | only the wizard's location changes |
| ProofsStore.ProofsStore.SetIsCapturingLocation | apps/web/app/store/proofs.ts:260-263 | only the wizard's capturing flag changes |
| ProofsStore.ProofsStore.SetPreviewUrl | apps/web/app/store/proofs.ts:265-268 | only the wizard's preview URL changes |
| ProofsStore.ProofsStore.UpdateFormData | apps/web/app/store/proofs.ts:270-276 | only the wizard's form changes, by the patch |
| ProofsStore.ProofsStore.ResetWizard | apps/web/app/store/proofs.ts:278-281 | the wizard returns to step 0 with no file, preview or location and an empty form |
| ProofsStore.ProofsStore.AddUploadInProgress | apps/web/app/store/proofs.ts:441-444 | the id is appended to the in-progress list |
| ProofsStore.ProofsStore.RemoveUploadInProgress | apps/web/app/store/proofs.ts:446-449 | every occurrence of the id leaves the in-progress list |
| ProofsStore.ProofsStore.UploadProof | apps/web/app/store/proofs.ts:359-402 | the new proof is put first, the returned id is `proof-` and the clock, and the id is no longer in progress afterwards |
| ProofsStore.ProofsStore.UpdateProofStatus | apps/web/app/store/proofs.ts:404-417 | the proofs with that id get `WithStatus`; all others are unchanged |
| ProofsStore.ProofsStore.DeleteProof | apps/web/app/store/proofs.ts:419-422 | the proofs become `Delete` of the old ones |
| Policies.ContentId | apps/web/app/store/policies.ts:342 | the id starts with `content-` |
| Policies.FromDraft | apps/web/app/store/policies.ts:339-344 | a new content keeps every field of the draft, takes the new id, and starts with no views |
| Policies.ApplyPatch | apps/web/app/store/policies.ts:353 | fields the patch leaves out are kept, and a view count in the patch replaces the old one |
| Policies.Update | apps/web/app/store/policies.ts:350-355 | the list keeps its length; contents with the id take the patch, all others are unchanged |
| Policies.ApplyPatchIdempotent | apps/web/app/store/policies.ts:350-355 | applying the same patch twice is applying it once, and an empty patch changes nothing |
| Policies.ToggleSynced | apps/web/app/store/policies.ts:387-400 | `toggleBookmark` keeps the bookmark list and the bookmark flags in step |
| Policies.ToggleFlags | apps/web/app/store/policies.ts:394-396 | the list keeps its length; contents with the id are bookmarked exactly when the id was not in the bookmark list, all others are unchanged |
| Policies.ToggleTwiceRestores | apps/web/app/store/policies.ts:387-400 | toggling twice restores the contents and the bookmark set, and the list itself when the id was absent |
| Policies.CountView | apps/web/app/store/policies.ts:377-381 | an id no content has leaves the contents unchanged |
| Policies.CountViewEffect | apps/web/app/store/policies.ts:370-382 | with distinct ids, exactly the viewed content gains one view, and the bookmark flags stay in step |
| Policies.FilteredContents | apps/web/app/store/policies.ts:440-473 | exactly the contents passing every active filter; with a tag filter, each result shares a tag with it |
| Policies.ClearedFiltersKeepAll | apps/web/app/store/policies.ts:428-473 | with the cleared filters, every content is listed in order |
| Policies.PopularContent | apps/web/app/store/policies.ts:485-490 | the front of the views-descending sort of a copy of the contents, as long as `slice(0, limit)` makes it: the limit (5 when omitted) or all contents when fewer, and for a negative limit all but that many from the end |
| Policies.PopularContentTop | apps/web/app/store/policies.ts:485-490 | no content left out of the popular list has more views than one listed |
| Policies.RelatedContent | apps/web/app/store/policies.ts:492-503 | an unknown id gives nothing; otherwise the first three, in store order, of the contents listed by the content, listing it, or another content of its category (all of them when fewer) |
| Policies.PoliciesStore.constructor | apps/web/app/store/policies.ts:326-336 | the bundled contents, cleared filters, nothing selected or recently viewed, and bookmarks `policy-1` and `faq-1`, in step with the flags |
| Policies.PoliciesStore.AddContent | apps/web/app/store/policies.ts:339-348 | the new content is put first; the invariant is kept when its bookmark flag agrees with the bookmark list |
| Policies.PoliciesStore.UpdateContent | apps/web/app/store/policies.ts:350-355 | the matching contents take the patch; the invariant is kept by patches that change neither id nor bookmark flag |
| Policies.PoliciesStore.DeleteContent | apps/web/app/store/policies.ts:357-362 | the content, its bookmark and its recent views are all removed; the invariant holds |
| Policies.PoliciesStore.ViewContent | apps/web/app/store/policies.ts:370-382 | the id moves to the front of the recent list (once, at most 10) and the content gains one view |
| Policies.PoliciesStore.SetSelectedContent | apps/web/app/store/policies.ts:384 | only the selection changes |
| Policies.PoliciesStore.ToggleBookmark | apps/web/app/store/policies.ts:387-400 | the bookmark list toggles the id and the flags follow it |
| Policies.PoliciesStore.ClearFilters | apps/web/app/store/policies.ts:428-437 | the filters return to their initial values and nothing else changes |
| Documents.WithStatus | apps/web/app/store/documents.ts:252-258 | the status is set; a rejection reason is kept only for a rejection; the upload time is renewed for uploaded or verified; nothing else changes |
| Documents.UpdateStatus | apps/web/app/store/documents.ts:249-260 | the list keeps its length; documents with the id take the new status as `WithStatus` sets it, all others are unchanged |
| Documents.MarkStep | apps/web/app/store/documents.ts:301-306 | the list keeps its length; steps with the id become completed, all others are unchanged |
| Documents.MarkStepIdempotent | apps/web/app/store/documents.ts:301-306 | marking a step completes exactly the steps with that id, and marking twice is marking once |
| Documents.RequiredDone | apps/web/app/store/documents.ts:326-329 | the done required documents are at most the required ones |
| Documents.CompletedSteps | apps/web/app/store/documents.ts:333 | the completed steps are at most all steps |
| Documents.Progress | apps/web/app/store/documents.ts:322-339 | no required document or no step gives `NaN`; otherwise the integer nearest to 70 c / r + 30 s / n (halves up), for c of r required documents done and s of n steps completed, hence from 0 to 100, 100 when all are done and 0 when none is |
| Documents.Weighted | apps/web/app/store/documents.ts:330-336 | the integer nearest to 70 c / r + 30 s / n, halves rounded up |
| Documents.WeightedWithin | apps/web/app/store/documents.ts:330-336 | the rounded weighted sum stays within 0 to 100 and reaches its ends |
| Documents.WeightedMono | apps/web/app/store/documents.ts:334-336 | more completed steps never lower the rounded progress |
| Documents.MarkStepMonotone | apps/web/app/store/documents.ts:301-308 | marking a step never lowers the overall progress |
| Documents.DocumentsStore.constructor | apps/web/app/store/documents.ts:243-247 | the bundled documents and steps, step 1, progress 0, nothing uploading |
| Documents.DocumentsStore.UpdateDocumentStatus | apps/web/app/store/documents.ts:249-261 | the documents with that id take `WithStatus`; nothing else changes |
| Documents.DocumentsStore.CalculateProgress | apps/web/app/store/documents.ts:322-339 | the stored progress becomes `Progress` of the documents and steps |
| Documents.DocumentsStore.MarkStepCompleted | apps/web/app/store/documents.ts:301-308 | the step is completed and the progress is recalculated |
| Documents.DocumentsStore.SetCurrentStep | apps/web/app/store/documents.ts:310 | only the current step changes |
| Documents.DocumentsStore.AddUploadInProgress | apps/web/app/store/documents.ts:312-315 | the id is appended to the in-progress list |
| Documents.DocumentsStore.RemoveUploadInProgress | apps/web/app/store/documents.ts:317-320 | every occurrence of the id leaves the in-progress list |
| Dashboard.SetTaskStatusEffect | apps/web/app/store/dashboard.ts:99-101 | a later status update of the same task overrides an earlier one and repeating an update changes nothing; only the matching tasks' status changes |
| Dashboard.SetTaskStatus | apps/web/app/store/dashboard.ts:99-101 | the list keeps its length; tasks with the id take the new status, all others are unchanged |
| Dashboard.MarkReadEffect | apps/web/app/store/dashboard.ts:115-119 | exactly the notifications with that id become read, and marking twice is marking once |
| Dashboard.MarkRead | apps/web/app/store/dashboard.ts:115-119 | the list keeps its length; notifications with the id become read, all others are unchanged |
| Dashboard.DashboardStore.constructor | apps/web/app/store/dashboard.ts:79-83 | no data, not loading, no error, never updated |
| Dashboard.DashboardStore.SetData | apps/web/app/store/dashboard.ts:85-89 | the data is stored, the update time is the clock, and the error is cleared |
| Dashboard.DashboardStore.SetLoading | apps/web/app/store/dashboard.ts:91 | only the loading flag changes |
| Dashboard.DashboardStore.SetError | apps/web/app/store/dashboard.ts:93 | only the error changes |
| Dashboard.DashboardStore.UpdateTaskStatus | apps/web/app/store/dashboard.ts:95-109 | without data nothing changes; otherwise only today's tasks change, by `SetTaskStatus` |
| Dashboard.DashboardStore.MarkNotificationRead | apps/web/app/store/dashboard.ts:111-127 | without data nothing changes; otherwise only the notifications change, by `MarkRead` |
| Dashboard.DashboardStore.RefreshData | apps/web/app/store/dashboard.ts:129-132 | only the update time changes, to the clock |
| ProfileTypes.LabelsDistinct | apps/web/app/types/profile.ts:34-64 | every label is non-empty, and different intensities, mobilities or font scales get different labels |
| ProfileTypes.IntensityLabel | apps/web/app/types/profile.ts:54-56 | every intensity has a non-empty label from its table |
| ProfileTypes.MobilityLabel | apps/web/app/types/profile.ts:58-60 | every mobility has a non-empty label from its table |
| ProfileTypes.FontScaleLabel | apps/web/app/types/profile.ts:62-64 | every font scale has a non-empty label from its table |
| ProfileTypes.MaskPhone | apps/web/app/types/profile.ts:66-86 | text shorter than 8 is kept; otherwise the result contains `****`; a number with exactly two dashes keeps its first and last group around `-****-`; any other keeps its first 3 and last 4 characters around `****`; in every case a prefix and a suffix of the number surround the mask |
| ProfileTypes.SplitLastSuffix | apps/web/app/types/profile.ts:71-73 | the last part of a split is a suffix of the text |
| ProfileStore.Merge | apps/web/app/store/profile.ts:67-73 | every field the patch supplies replaces the profile's, and every field it leaves out is kept |
| ProfileStore.MergeLaws | apps/web/app/store/profile.ts:67-73 | merging a patch twice is merging it once, two merges are one merge of the combined patch, and the empty patch changes nothing |
| ProfileStore.MergeFull | apps/web/app/store/profile.ts:67-73 | a patch carrying every field of a profile whose optional fields are set turns any profile into that profile |
| ProfileStore.ProfileStore.constructor | apps/web/app/store/profile.ts:49-65 | the default profile, not loading, no error |
| ProfileStore.ProfileStore.SetProfile | apps/web/app/store/profile.ts:67-69 | the profile becomes the merge of the old profile and the patch: the given fields replace the stored ones and the rest are kept |
| ProfileStore.ProfileStore.UpdateProfile | apps/web/app/store/profile.ts:71-73 | the profile becomes the merge of the old profile and the patch: the given fields replace the stored ones and the rest are kept |
| ProfileStore.ProfileStore.SetLoading | apps/web/app/store/profile.ts:75 | only the loading flag changes |
| ProfileStore.ProfileStore.SetError | apps/web/app/store/profile.ts:77 | only the error changes |
| ProfileStore.ProfileStore.ResetProfile | apps/web/app/store/profile.ts:79-82 | the default profile returns and the error is cleared |
| ProfileStore.ProfileStore.CompleteOnboarding | apps/web/app/store/profile.ts:84-90 | onboarding is marked completed and its step goes back to 0; nothing else changes |
| ProfileStore.ProfileStore.SetOnboardingStep | apps/web/app/store/profile.ts:92-94 | only the onboarding step changes |
| ProfileData.FilledCount | apps/web/app/data/profile.ts:92-107 | at most five fields count, and all five count exactly when the profile is complete |
| ProfileData.CompletionPercentage | apps/web/app/data/profile.ts:103-110 | 20 per filled field, so one of 0, 20, 40, 60, 80, 100, and 100 exactly when the profile is complete |
| ProfileData.FillingRaises | apps/web/app/data/profile.ts:103-110 | filling an empty name raises the percentage by 20 |
| ProfileData.FillingMonotone | apps/web/app/data/profile.ts:103-110 | a profile with at least the same fields filled never has a lower percentage |
| ProfileData.MissingFieldIncomplete | apps/web/app/data/profile.ts:92-110 | a complete profile that loses its phone or intensity drops to 80 |
| Settings.ClampScale | stores/settingsStore.ts:107-108 | the scale is clamped into 0.8 to 1.4: kept inside, raised to the bound below, lowered to the bound above |
| Settings.ClampIdempotent | stores/settingsStore.ts:107-108 | clamping twice is clamping once |
| Settings.NewNotification | stores/settingsStore.ts:114-121 | a new notification is unread, stamped with the clock, has id `notif-` and the clock, and keeps the given title, message and kind |
| Settings.PrependUnread | stores/settingsStore.ts:122-125 | putting an unread notification first raises the unread count by one, as the stored counter does |
| Settings.MarkAllRead | stores/settingsStore.ts:137-141 | every notification is kept, in order, with its read flag set, so nothing is unread afterwards |
| Settings.NoneUnread | stores/settingsStore.ts:133-140 | a list with every notification read has no unread ones |
| Settings.MarkRead | stores/settingsStore.ts:130-132 | the list keeps its length; notifications with the id become read, all others are unchanged |
| Settings.MarkReadLowers | stores/settingsStore.ts:128-135 | marking one as read never raises the unread count, and an unknown id changes nothing |
| Settings.UseAi | stores/settingsStore.ts:145-156 | a window started (and not at 0) 30 minutes or more ago restarts at the clock with one use; otherwise the count rises by one and the window starts at the clock if it had not started |
| Settings.UseAiStarts | stores/settingsStore.ts:145-156 | after a use the window has started and has at least one use |
| Settings.SettingsStore.constructor | stores/settingsStore.ts:67-101 | scale 1.0, light mode, walking, the three sample notifications with two unread, no AI window |
| Settings.SettingsStore.IsSeniorMode | stores/settingsStore.ts:104 | senior mode holds exactly when the scale is 1.2 or more |
| Settings.SettingsStore.SetFontScale | stores/settingsStore.ts:107-108 | the scale becomes the clamped value; nothing else changes |
| Settings.SettingsStore.SetDarkMode | stores/settingsStore.ts:110 | only the dark mode flag changes |
| Settings.SettingsStore.SetMobility | stores/settingsStore.ts:112 | only the mobility changes |
| Settings.SettingsStore.AddNotification | stores/settingsStore.ts:114-126 | the new notification is put first and the counter rises by one, matching the unread notifications |
| Settings.SettingsStore.MarkAsRead | stores/settingsStore.ts:128-135 | the matching notifications become read and the counter is recounted, never rising |
| Settings.SettingsStore.MarkAllAsRead | stores/settingsStore.ts:137-141 | every notification is kept in order and marked read, and the counter is 0 |
| Settings.SettingsStore.ClearNotifications | stores/settingsStore.ts:143 | no notifications remain and the counter is 0 |
| Settings.SettingsStore.UseAiRecommend | stores/settingsStore.ts:145-156 | the AI window and count move as `UseAi` says |
| Settings.SettingsStore.ResetAiCooldown | stores/settingsStore.ts:158 | the AI window is cleared and the count is 0 |
| ManualSchedules.NewSchedule | apps/mobile/stores/manualScheduleStore.ts:63-73 | a new schedule keeps every field of the draft, takes id `manual-` and the clock, and the clock as creation time |
| ManualSchedules.Merge | apps/mobile/stores/manualScheduleStore.ts:75-80 | every field the patch supplies replaces the schedule's, every other field is kept, and the id and creation time never change |
| ManualSchedules.MergeIdempotent | apps/mobile/stores/manualScheduleStore.ts:78 | applying the same patch twice is applying it once |
| ManualSchedules.Update | apps/mobile/stores/manualScheduleStore.ts:75-80 | the list keeps its length, ids and creation times; schedules with the id become their merge with the patch, and schedules with other ids are unchanged |
| ManualSchedules.UpdateIdempotent | apps/mobile/stores/manualScheduleStore.ts:75-80 | updating twice with the same patch is updating once |
| ManualSchedules.Remove | apps/mobile/stores/manualScheduleStore.ts:82-85 | exactly the schedules with other ids remain |
| ManualSchedules.RemoveKeepsOrder | apps/mobile/stores/manualScheduleStore.ts:84 | removal distributes over concatenation, so the order is kept, and a list without that id is unchanged |
| ManualSchedules.AddVisit | apps/mobile/stores/manualScheduleStore.ts:90-107 | a visit to a schedule already recorded for that date leaves the records unchanged; otherwise exactly one record, stamped with the clock, is appended; so at most one visit per schedule and date is kept |
| ManualSchedules.VisitCount | apps/mobile/stores/manualScheduleStore.ts:110-113 | the number of records of that category, at most the number of records, and zero exactly when no record has it |
| ManualSchedules.Categories | apps/mobile/stores/manualScheduleStore.ts:22 | each visited category once, and only those |
| ManualSchedules.TotalIsSumOfCategories | apps/mobile/stores/manualScheduleStore.ts:110-118 | the total visit count equals the per-category counts added up over the visited categories |
| ManualSchedules.SumCountsAll | apps/mobile/stores/manualScheduleStore.ts:110-118 | over distinct categories covering every record, the per-category counts add up to the number of records |
| ManualSchedules.ManualScheduleStore.constructor | apps/mobile/stores/manualScheduleStore.ts:60-61 | no schedules and no visit records |
| ManualSchedules.ManualScheduleStore.AddSchedule | apps/mobile/stores/manualScheduleStore.ts:63-73 | the new schedule is appended and the records are unchanged |
| ManualSchedules.ManualScheduleStore.UpdateSchedule | apps/mobile/stores/manualScheduleStore.ts:75-80 | the schedules become `Update` of the old ones, so the matching ones take the patch; the visit records are unchanged |
| ManualSchedules.ManualScheduleStore.RemoveSchedule | apps/mobile/stores/manualScheduleStore.ts:82-85 | the schedules become `Remove` of the old ones |
| ManualSchedules.ManualScheduleStore.ClearAllSchedules | apps/mobile/stores/manualScheduleStore.ts:87 | both the schedules and the visit records are emptied |
| ManualSchedules.ManualScheduleStore.AddVisitRecord | apps/mobile/stores/manualScheduleStore.ts:90-107 | the records become `AddVisit` of the old ones, keeping one visit per schedule and date |
| ManualSchedules.ManualScheduleStore.GetVisitCountByCategory | apps/mobile/stores/manualScheduleStore.ts:110-113 | the number of stored records of that category, zero exactly when no record has it |
| ManualSchedules.ManualScheduleStore.GetTotalVisitCount | apps/mobile/stores/manualScheduleStore.ts:116-118 | the number of records, which is the sum of the per-category counts |
| RootSchedules.ScheduleStore.constructor | stores/manualScheduleStore.ts:45 | no schedules |
| RootSchedules.ScheduleStore.AddSchedule | stores/manualScheduleStore.ts:46-56 | exactly one schedule is appended and the earlier ones are unchanged |
| RootSchedules.ScheduleStore.RemoveSchedule | stores/manualScheduleStore.ts:57-60 | exactly the schedules with other ids remain, and an absent id changes nothing |
| RootSchedules.ScheduleStore.ClearAllSchedules | stores/manualScheduleStore.ts:61 | no schedules remain |
| TimeOfDay.ParseInt | components/ScheduleDetailModal.tsx:56 | `parseInt(text, 10)` fails (is `NaN`) exactly when no digit follows the leading white space and an optional sign |
| TimeOfDay.ParseDigits | components/ScheduleDetailModal.tsx:56 | a non-empty run of digits parses to its decimal value |
| TimeOfDay.Pad2 | components/HomeScreenSenior.tsx:135 | `padStart(2, '0')` of a number gives at least two digits, and exactly two below 100 |
| TimeOfDay.Pad2Digits | components/HomeScreenSenior.tsx:135 | below 100, the two characters are the tens digit and the units digit, so their value is the number |
| TimeOfDay.DecimalValue | components/HomeScreenSenior.tsx:135 | the decimal text of a number reads back as that number |
| TimeOfDay.ClockTime | components/HomeScreenSenior.tsx:135 | a time of day is five characters with `:` in the middle |
| TimeOfDay.ClockTimeHour | components/ScheduleDetailModal.tsx:56 | parsing the part before `:` of a formatted time gives back its hour |
| TimeOfDay.ClockTimeOrder | components/HomeScreenSenior.tsx:129-137 | formatted times compare as strings exactly as the times of day compare in minutes |
| ScheduleDetail.Hour | components/ScheduleDetailModal.tsx:56 | the hour is `parseInt` of the text before the first `:`, or of the whole time when it has none |
| ScheduleDetail.GetTimeSlot | components/ScheduleDetailModal.tsx:55-61 | morning exactly for hours 6 to 11, noon for 12 to 16, evening for 17 to 20, and night otherwise, including when no hour can be parsed |
| ScheduleDetail.ClockTimeSlot | components/ScheduleDetailModal.tsx:55-61 | the slot of a formatted time is decided by its hour alone |
| ScheduleDetail.NoDigitsIsNight | components/ScheduleDetailModal.tsx:56-60 | a time with no digit at all is night |
| ScheduleDetail.TimeSlotLabel | components/ScheduleDetailModal.tsx:76-81 | every slot label is two characters |
| ScheduleDetail.SlotPresentationDistinct | components/ScheduleDetailModal.tsx:203-214 | different slots get different labels, badge backgrounds and badge colours |
| ScheduleDetail.TimeBadgeStyle | components/ScheduleDetailModal.tsx:203-214 | every slot has a badge whose background and text colours are two different `#RRGGBB` values |
| ScheduleDetail.PoiTypeLabel | components/ScheduleDetailModal.tsx:64-73 | every place type has a non-empty label |
| ScheduleDetail.LabelKeyOf | components/ScheduleDetailModal.tsx:110-112 | a manual schedule is labelled as manual, any other by its place type |
| ScheduleDetail.PlaceLabels | components/ScheduleDetailModal.tsx:64-73 | the manual label shows exactly for manual schedules, and subway and bus are the only two types sharing a label |
| HomeSenior.EarlierStartTotal | components/HomeScreenSenior.tsx:129 | ordering by start time is a total preorder |
| HomeSenior.Unmarked | components/HomeScreenSenior.tsx:128 | the generated schedule marked as not manual, with its id and start time kept |
| HomeSenior.AllSchedules | components/HomeScreenSenior.tsx:127-130 | every generated schedule exactly once, marked not manual, sorted by start time; manual schedules are not shown |
| HomeSenior.Upcoming | components/HomeScreenSenior.tsx:133-138 | exactly the schedules starting at or after the current time, still sorted |
| HomeSenior.FilterSorted | components/HomeScreenSenior.tsx:137 | filtering a sorted list keeps it sorted |
| HomeSenior.AgendaAt | components/HomeScreenSenior.tsx:126-142 | the total counts every generated schedule; the next schedule followed by the remaining ones is exactly the upcoming list, and there is no next one exactly when that list is empty, that is when no schedule starts at or after now; the next one is not manual and starts no later than any remaining one |
| HomeSenior.UpcomingByClock | components/HomeScreenSenior.tsx:135-137 | a schedule at a formatted time is upcoming exactly when its minute of the day is not before now |
| Breadcrumbs.Segments | apps/web/app/components/layout/Header.tsx:37 | every segment is non-empty and has no `/`, and the segments are exactly the non-empty parts of the path split at `/` |
| Breadcrumbs.CrumbText | apps/web/app/components/layout/Header.tsx:18-42 | a link with a known label shows that label; any other shows its segment |
| Breadcrumbs.Trail | apps/web/app/components/layout/Header.tsx:29-45 | no trail exactly on `/home`; otherwise one crumb per segment after the home crumb |
| Breadcrumbs.Items | apps/web/app/components/layout/Header.tsx:38-45 | one crumb per segment after the home crumb `/home` labelled 홈 |
| Breadcrumbs.TrailLinks | apps/web/app/components/layout/Header.tsx:40-44 | the first link is `/` and the first segment, each later link extends the previous one by `/` and its segment, and a link without a known label shows its segment |
| DocumentUpload.Validate | apps/web/app/components/DocumentUpload.tsx:114-131 | checked in order: an unaccepted type is refused as such; an accepted file over the size limit in MB is too large; an accepted file within the limit whose name is already uploaded is a duplicate; every other file passes |
| DocumentUpload.InitialEntry | apps/web/app/components/DocumentUpload.tsx:191-199 | a new entry keeps the file's name, size and type, is uploading at progress 0, and has no URL yet |
| DocumentUpload.InitialEntries | apps/web/app/components/DocumentUpload.tsx:191-199 | one entry per valid file, in order, numbered by its index |
| DocumentUpload.FilterSnoc | apps/web/app/components/DocumentUpload.tsx:176-183 | filtering a list with one more file adds that file at the end exactly when it passes |
| DocumentUpload.DocumentUploader.constructor | apps/web/app/components/DocumentUpload.tsx:62-91 | omitted props take their defaults: one file, 10 MB, PDF, JPEG and PNG; nothing is uploaded |
| DocumentUpload.DocumentUploader.ValidFiles | apps/web/app/components/DocumentUpload.tsx:173-183 | the loop keeps exactly the files of the batch that pass validation, in order |
| DocumentUpload.DocumentUploader.HandleFileUpload | apps/web/app/components/DocumentUpload.tsx:164-201 | a batch that would exceed the file limit is refused and changes nothing; within the limit, the answer is "none valid" exactly when no file passes validation, and then nothing changes; otherwise one uploading entry per valid file is appended, so the limit is never exceeded |
| DocumentUpload.DocumentUploader.HandleRemoveFile | apps/web/app/components/DocumentUpload.tsx:245-247 | exactly the entries with other ids remain, in order |
| DocumentUpload.SameBatchDuplicatesPass | apps/web/app/components/DocumentUpload.tsx:176-183 | two files of one batch with the same valid name both pass, because names are checked only against earlier uploads |
| Cart.ChangeQuantity | apps/web/app/shop/cart/page.tsx:43-49 | the matching items get quantity `max(1, quantity + delta)`, so never below 1; other items are unchanged |
| Cart.Remove | apps/web/app/shop/cart/page.tsx:51-53 | exactly the items with other ids remain |
| Cart.Subtotal | apps/web/app/shop/cart/page.tsx:65 | the empty cart costs nothing, and with no negative price or quantity the subtotal is never negative |
| Cart.Shipping | apps/web/app/shop/cart/page.tsx:66 | shipping is free exactly from 100000 won, and 3000 won otherwise |
| Cart.Total | apps/web/app/shop/cart/page.tsx:65-67 | the total is the subtotal plus shipping, so it is either at least 100000 or the subtotal plus 3000 |
| Cart.InitialTotals | apps/web/app/shop/cart/page.tsx:16-67 | the initial cart costs 185000 won with free shipping |
| Cart.RemoveSplitsSubtotal | apps/web/app/shop/cart/page.tsx:51-65 | the subtotal is the subtotal after removing an item plus that item's lines |
| Cart.IncreaseRaisesSubtotal | apps/web/app/shop/cart/page.tsx:43-65 | with non-negative prices, raising a quantity never lowers the subtotal |
| Cart.CartPage.constructor | apps/web/app/shop/cart/page.tsx:41 | the initial cart, with every quantity at least 1 |
| Cart.CartPage.HandleQuantityChange | apps/web/app/shop/cart/page.tsx:43-49 | the cart becomes `ChangeQuantity` of the old one, and every quantity stays at least 1 |
| Cart.CartPage.HandleRemove | apps/web/app/shop/cart/page.tsx:51-53 | the cart becomes `Remove` of the old one |
| Cart.CartPage.HandleClearCart | apps/web/app/shop/cart/page.tsx:55-59 | a confirmed clear empties the cart; a declined one changes nothing |
| Checklist.SectionChecked | apps/web/app/guides/checklist/page.tsx:173-178 | a section never shows more checked items than it has |
| Checklist.CheckedCount | apps/web/app/guides/checklist/page.tsx:105-107 | the checked count never exceeds the number of items |
| Checklist.TotalItems | apps/web/app/guides/checklist/page.tsx:104 | the number of items is zero exactly when every section is empty |
| Checklist.ProgressPercent | apps/web/app/guides/checklist/page.tsx:103-108 | `NaN` exactly when the tab has no item; otherwise the integer nearest to 100 k / n (halves up), for k checked of n items, hence from 0 to 100, 100 when every item is checked and 0 when none is |
| Numbers.Percent | apps/web/app/guides/checklist/page.tsx:108 | `Math.round(k / n * 100)` is the integer nearest to 100 k / n with halves rounded up, from 0 to 100 when 0 <= k <= n, 100 at k = n and 0 at k = 0 |
| Checklist.ForeignIdsIgnored | apps/web/app/guides/checklist/page.tsx:105-107 | checking an id no item of the tab has leaves the count unchanged, so ids of the other tab do not count |
| Checklist.CheckRaisesByOne | apps/web/app/guides/checklist/page.tsx:105-114 | checking an unchecked id that exactly one item of the tab has raises the count by one |
| Checklist.CheckedIsFlat | apps/web/app/guides/checklist/page.tsx:105-107 | counting per section and adding up equals counting over all items of the tab |
| Checklist.Flatten | apps/web/app/guides/checklist/page.tsx:104 | the items of all sections together are as many as the total |
| Checklist.ChecklistPage.constructor | apps/web/app/guides/checklist/page.tsx:100-101 | the preliminary tab with `p9`, `p10` and `p11` checked |
| Checklist.ChecklistPage.SetActiveTab | apps/web/app/guides/checklist/page.tsx:100 | only the tab changes; the checked ids are kept across tabs |
| Checklist.ChecklistPage.HandleCheck | apps/web/app/guides/checklist/page.tsx:110-114 | the id is toggled, and the checked list keeps no repeats |
| Checklist.ChecklistPage.Progress | apps/web/app/guides/checklist/page.tsx:103-108 | both tabs have items, so the page's progress is always a number from 0 to 100 |
| VoterCrm.Filtered | apps/web/app/voter-crm/page.tsx:55-59 | exactly the voters whose name, phone or region contains the search text |
| VoterCrm.EmptySearchListsAll | apps/web/app/voter-crm/page.tsx:55-59 | the empty search lists every voter in order |
| VoterCrm.Ids | apps/web/app/voter-crm/page.tsx:66 | one id per voter, and exactly the voters' ids |
| VoterCrm.SelectAllAsWritten | apps/web/app/voter-crm/page.tsx:62-68 | as written: a selection as large as the listed voters is cleared, and any other is replaced by exactly the listed ids |
| VoterCrm.SelectAllAsWrittenClearsUnselected | apps/web/app/voter-crm/page.tsx:62-68 | as written, with one other voter selected and one voter listed, "select all" clears the selection, where the corrected version selects the listed voter |
| VoterCrm.SelectAll | apps/web/app/voter-crm/page.tsx:62-68 | corrected: the selection is cleared exactly when every listed voter is already selected (or none is listed); otherwise it becomes exactly the listed voters' ids |
| VoterCrm.SelectAllTwice | apps/web/app/voter-crm/page.tsx:62-68 | with voters listed, a second "select all" clears exactly when the first one selected |
| VoterCrm.VoterCrmPage.constructor | apps/web/app/voter-crm/page.tsx:44-52 | the five initial voters, an empty search, selection and message, an empty form, nothing being edited, every modal closed |
| VoterCrm.VoterCrmPage.SetSearchTerm | apps/web/app/voter-crm/page.tsx:45 | only the search text changes |
| VoterCrm.VoterCrmPage.HandleSelectAll | apps/web/app/voter-crm/page.tsx:62-68 | the selection becomes the corrected `SelectAll` of the listed voters; nothing else changes |
| VoterCrm.VoterCrmPage.HandleSelect | apps/web/app/voter-crm/page.tsx:71-77 | only the selection changes, by toggling the id |
| VoterCrm.VoterCrmPage.HandleAddVoter | apps/web/app/voter-crm/page.tsx:80-91 | without a name or a phone nothing changes; otherwise the new voter, with the clock as id and today's date, is put first, the form is reset and the modal closes |
| VoterCrm.VoterCrmPage.HandleDeleteSelected | apps/web/app/voter-crm/page.tsx:94-99 | with a selection and a confirmation, exactly the unselected voters remain and the selection is cleared; otherwise nothing changes |
| VoterCrm.VoterCrmPage.HandleEditVoter | apps/web/app/voter-crm/page.tsx:102-105 | the voter is being edited and the edit modal is open |
| VoterCrm.VoterCrmPage.HandleSaveEdit | apps/web/app/voter-crm/page.tsx:108-113 | without an edited voter with name and phone nothing changes; otherwise voters with its id are replaced by it, the list keeps its length, and the modal closes |
| VoterCrm.VoterCrmPage.HandleDeleteVoter | apps/web/app/voter-crm/page.tsx:116-119 | a confirmed delete keeps exactly the voters with other ids; a declined one changes nothing |
| VoterCrm.VoterCrmPage.HandleSendSms | apps/web/app/voter-crm/page.tsx:122-128 | with a non-blank message and a selection, it reports sending to every selected voter, then clears the message and the selection and closes the modal; otherwise nothing changes and nobody is messaged |
| Onboarding.NextStep | apps/mobile/screens/OnboardingScreen.tsx:142-148 | before the last of the three steps the step advances by one; at the last it stays |
| Onboarding.BackStep | apps/mobile/screens/OnboardingScreen.tsx:150-156 | after the first step the step goes back by one; at the first it stays |
| Onboarding.NextBackRoundTrip | apps/mobile/screens/OnboardingScreen.tsx:142-156 | going forward then back, or back then forward, returns to the same step where both moves are possible |
| Onboarding.CanProceed | apps/mobile/screens/OnboardingScreen.tsx:167-176 | proceeding is allowed exactly on steps 0, 1 and 2 |
| Onboarding.OnboardingFlow.constructor | screens/OnboardingScreen.tsx:97 | step 0, not loading, font scale 1.0 |
| Onboarding.OnboardingFlow.HandleNext | apps/mobile/screens/OnboardingScreen.tsx:142-165 | the step advances; exactly at the last step completion starts and the screen shows loading |
| Onboarding.OnboardingFlow.HandleBack | apps/mobile/screens/OnboardingScreen.tsx:150-156 | it goes back exactly when past the first step; at the first step it leaves onboarding exactly when a back handler is given |
| Onboarding.OnboardingFlow.SetFontScale | screens/OnboardingScreen.tsx:262-268 | the slider sets a scale from 0.8 to 1.4 and nothing else |
| Onboarding.OnboardingFlow.CanProceedNow | screens/OnboardingScreen.tsx:126-135 | the current step always allows proceeding, because the step never leaves 0 to 2 |
| Onboarding.OnboardingFlow.IsSeniorMode | screens/OnboardingScreen.tsx:99 | senior mode holds exactly when the scale is 1.2 or more |
| Onboarding.SliderSeniorPositions | screens/OnboardingScreen.tsx:262-268 | of the slider's positions, exactly 1.2, 1.3 and 1.4 are senior mode |

## Left out

- SignedUrl: the storage provider is a parameter that answers with a payload or an error message. A provider reply whose error field is present but falsy (an empty object) cannot be expressed; the backend would pass such a reply through as a success. The network call itself is not modelled.
- Auth, Middleware: the session and token come from NextAuth, outside this model; only the role and whether a token exists are inputs. Roles outside candidate, admin and viewer, and object-prototype keys such as `constructor` in the route table, are not modelled. The route `matcher` regular expression and the console logging are left out.
- Broadcasts: the filter setters other than `clearFilters` only replace one filter field and are not modelled separately. `getRecentBroadcasts` is left out because it reads the wall clock through `new Date()`. Publication times are integers, not date strings.
- Templates: `rateTemplate` is left out because it averages floating-point ratings. Template scores are `real` values, and the filter setters are not modelled separately.
- Education: `getContentsByCategory` and the filter setters are left out; the first is the same grouping shown for broadcasts and templates.
- Education.PathProgress, Documents.Progress, Checklist.ProgressPercent: `Math.round` of a floating-point ratio is integer rounding with halves going up, so a float product landing just below an exact half is not modelled.
- ProofsStore: `captureCurrentLocation`, `reverseGeocode` (browser geolocation and the network), the device information and file metadata of a new proof, the filter setters, and the interleaving of the asynchronous upload with other actions are left out. The two-second delay is not modelled: `UploadProof` performs the whole upload as one step.
- Documents: `uploadDocument` is left out because it depends on timers, `Math.random` and object URLs; its status effects are those of `UpdateDocumentStatus`.
- Policies: `getContentById`, `getContentsByCategory` and the filter setters are left out. A patch field set explicitly to `undefined` is treated as absent.
- Strs, ProfileTypes.MaskPhone, HomeSenior: a string is a sequence of Unicode code points, while JavaScript's `length`, indexing and `<`/`>=` work on UTF-16 code units. Lengths, positions and string order therefore agree with JavaScript only for text inside the Basic Multilingual Plane; for example, a phone text starting with an emoji has one character fewer in the model, so the length-8 threshold of `MaskPhone` and the 3/4-character cut are reached at different places, and such a character sorts after U+E000 to U+FFFF rather than before.
- Policies.Matches, Broadcasts.Matches: the search lower-cases only ASCII letters, while `toLowerCase()` also folds non-ASCII letters, so a search that differs from a title only in the case of a non-ASCII letter is not modelled as a match.
- Policies.ApplyPatch: states only what happens to the id, the bookmark flag and the view count, the fields the store invariant and the view counter depend on.
- ProfileData: the Supabase fetch, update and subscription functions are I/O and are not modelled; only the completeness helpers are.
- Settings, Onboarding: font scales are integer tenths (8 to 14 stand for 0.8 to 1.4), so floating-point scales between slider steps are not modelled. Notification and schedule timestamps are integer clocks, not ISO strings. The web-storage adapter is left out.
- ProfileStore.Merge: a field passed explicitly as `undefined` in the update object overwrites the stored value with `undefined` when the object is spread; the model treats such a field as absent and keeps the stored value.
- ManualSchedules.Merge: a field other than the location passed explicitly as `undefined` clears the stored value when the update object is spread; the model treats it as absent and keeps the stored value.
- ManualSchedules, RootSchedules: the persistence adapter is left out; creation and visit times are integer clocks instead of ISO strings.
- ScheduleDetail: the Haversine distance, location verification, directions and the modal's rendering are left out.
- HomeSenior: `localeCompare` and `>=` on start times are modelled as code-point order, which coincides with locale order for `HH:MM` times. The conversion of manual schedules is computed but unused in senior mode, so it is not modelled. The current time is a parameter.
- DocumentUpload: refusals are kinds, not message texts. `simulateUpload`'s progress updates, the `Promise.allSettled` phase, the success and error toasts, `getFileIcon`, `formatFileSize` and `handlePreview` are left out because they depend on timers, random ids and the browser. The generated ids are `documentId-now-index`.
- Cart: `handleCheckout` only shows an alert and is left out.
- VoterCrm.VoterCrmPage.HandleSelectAll: applies the corrected test `SelectAll` (clear only when every listed voter is selected) rather than the length comparison of page.tsx:63, so the page model never clears a selection merely because it has as many ids as there are listed voters; that as-written behaviour is `SelectAllAsWritten`, and the Findings table shows where the two differ.
- VoterCrm: the alert of `handleSendSms` and the form setters are left out; `confirm()` answers and today's date are parameters.
- Onboarding: `handleComplete`'s one-second timer and the `onComplete` callback are modelled as the `CompletionStarted` outcome with loading set. In the mobile screen the font scale lives in the settings store (`Settings.SettingsStore.SetFontScale`); the slider field of the flow models the root screen.
- Onboarding.OnboardingFlow.SetFontScale: requires a slider position, since the slider cannot produce any other value.

## Findings

| source | as written | input that shows it | evidently intended | confidence | as-written member | corrected member |
|---|---|---|---|---|---|---|
| apps/web/middleware.ts:26-27,109-116 | the public list holds `/`, which ends with `/` and so matches every path by prefix; every path is public, `getRoleForPath` always returns no roles, and the role table never applies | a viewer requesting `/dashboard` proceeds, and a request without a token reaches `/dashboard/settings` | `/` should match only the root, so `/dashboard` needs candidate or admin and a viewer is sent to `/candidates` | not executed; high | Middleware.MiddlewareAlwaysNext, Middleware.ViewerReachesDashboard | Middleware.FixedTableApplies, Middleware.FixedViewerRedirected |
| apps/web/app/voter-crm/page.tsx:62-68 | "select all" compares only the number of selected voters with the number listed | voter `3` selected while the search lists only voter `1`: the selection is cleared instead of selecting voter `1` | clear only when every listed voter is already selected, otherwise select the listed voters | not executed; medium | VoterCrm.SelectAllAsWrittenClearsUnselected | VoterCrm.SelectAll, VoterCrm.SelectAllTwice |
