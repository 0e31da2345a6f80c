# ExamPortal admin core, modelled in Dafny

ExamPortal is an admin web application for an online exam platform. This project
models its decision logic and proves properties of that model. The model covers four
groups:

- **Sessions.** The Argon2 login and its bcrypt debug variant, logout, the middleware
  in front of `/admin/manage-users`, and the "cookie, then verify, then role" gate that
  every content route copies before it touches the store.
- **The admin table.** Create-user, listing and deleting admins (with the last-admin
  guard), the reset route, the create-admin script and the find-or-create seed.
- **Content handlers.** Question create and list, image upload, question banks, the
  bulk question transaction, per-question analytics, the student CSV upload, the
  audit-log join and the student-growth month buckets.
- **The four test builders.** The section list of `TestCreator`, of the create-test
  page and of the dashboard builder, and the schema-checked exam-management form
  builder with its submission loop.

The store is a class `Db.Database` whose tables are sequences of rows, in insertion
order, with one id counter. Each route handler is a method on that store. A handler
that writes states its new store as a function of the old one (`PostOutcome`,
`UploadOutcome`, `BankPost`, `BulkPost`, and so on), and lemmas prove what the route
promises about that function. Loops are `while` loops proved against a function
defined on prefixes of their input.

The disk is a map from absolute paths, as lists of segments, to bytes. The upload route
writes where `path.join` resolves the stored name. Since that name ends with the
client's file name, a name with `..` segments is written outside public/uploads, and
two different names can write the same file (`Upload.ParentSegmentsEscapeUploads`,
`Upload.DifferentNamesShareAFile`).

Front-end state that JavaScript shares by reference is a heap object. Examples are a
section's `questions` array in `TestCreator` and the section objects that
`handleSectionChange` assigns into. Their contracts show which old values the update
also reaches.

The libraries and the outside world are parameters:

- JWT verify is `decode: string -> Option<Claims>`, where `None` means verify threw.
- JWT sign is `sign: Payload -> Option<string>`.
- Argon2 and bcrypt are `hash` and `verify`.
- Store constraints on a row's own fields are `refuses: Write -> bool`: required fields and enumerations such as the admin role. Keys over stored rows are checked against the tables. These are admin emails, student emails in the CSV upload, the (question, tag) key of the tag links a request writes, a question's creator in both question routes, the exam an exam link names, and the question and exam rows whose creator keeps an admin from being deleted.
- The values of the `Subject` and `Difficulty` enumerations, which the listing filters must match, are an `enums: Enums` argument.
- The working directory is a `cwd` argument, as the segments of its absolute path.
- The CSV parser is `parse`.
- The clock is a `now` argument.
- A fetch that throws is `send: QuestionPost -> bool`.

The files, one module each:
- `common.dfy`: Option, string, digit, date and JavaScript-number helpers.
- `http.dfy`: responses and cookies.
- `auth.dfy`: claims, the gate and session cookies.
- `db.dfy`: rows, lookups and the `Database` class.
- One file per route or script, named after it.
- `test_creator.dfy`, `create_test_page.dfy`, `dashboard_builder.dfy` and
  `exam_builder.dfy`: the four builders.

## Model

| member | source | states |
|---|---|---|
| Auth.SessionCookie | app/api/admin/login/route.ts:49-55 | the session cookie is `admin_token` with the token as value, httpOnly, path '/', sameSite strict, maxAge 24 hours and no expiry; it is secure exactly when NODE_ENV is 'production' |
| Auth.ExpiredSessionCookie | app/api/admin/logout/route.ts:5-9 | the logout cookie has the same name and path, an empty value and expiry at the epoch, and sets only httpOnly besides |
| Auth.Gate | app/api/questions/route.ts:9-15 | 401 exactly when there is no token or it is empty, 500 exactly when verify throws, 403 exactly when the decoded role is outside the route's roles, and otherwise admission with the decoded claims |
| Auth.GateAdmitsStoredRole | app/api/admin/create-user/route.ts:10-18 | a token carrying a stored role is admitted exactly when that role is one the route allows; an ADMIN token passes the content gate and gets 403 from create-user |
| Auth.SessionPayload | app/api/admin/login/route.ts:34-38 | what login signs: the admin's id and role, valid for 24 hours |
| Auth.Refusal | app/api/upload/route.ts:12-16 | a refused gate answers with its status and error message as a JSON error |
| Auth.ExpiredAt | app/api/admin/logout/route.ts:5-9 | a cookie whose expiry is not after now, or whose maxAge is not positive, is expired on arrival (RFC 6265 section 5.3) |
| Auth.StoreCookie | app/api/admin/logout/route.ts:5-9 | the browser's jar after one `Set-Cookie`: an expired cookie removes its name, any other stores its value under its name |
| Auth.StoreCookies | app/api/admin/login/route.ts:49-55 | the jar after a response's cookies, stored in order |
| Auth.SessionToken | app/api/upload/route.ts:11 | `req.cookies.get('admin_token')?.value`: the jar's admin_token value, or none |
| AdminLogin.Lookup | app/api/admin/login/route.ts:13 | the admin found has exactly the given email (no normalisation), and none is found exactly when no row has that email |
| AdminLogin.Login | app/api/admin/login/route.ts:6-62 | a body that is not JSON, or a missing password for a known email, gives 500; an unknown email gives 401 without consulting verify; every 401 is the same `Invalid credentials` response; 200 holds exactly when the credentials authenticate and signing succeeds, and then the claims are the stored id and role for 24 hours, the body holds only id, email and role, and the one cookie is the session cookie; no failure sets a cookie |
| AdminLogin.Authenticates | app/api/admin/login/route.ts:13-30 | an admin has exactly this email, a password was sent, and the stored hash accepts it |
| DebugAdmin.DebugLogin | app/api/debug-admin/route.ts:6-57 | unknown email gives 401 `Admin not found`, a failed bcrypt compare gives 401 `Invalid password`, and the two responses tell which case it was; success carries only the message and the same cookie as login; thrown errors give 500 and no failure sets a cookie |
| AdminLogout.Logout | app/api/admin/logout/route.ts:3-11 | takes no input and always returns 200 `Logout successful` with exactly the expired cookie, whose name and path are those of the login cookie |
| AdminLogout.LogoutEndsSession | app/api/admin/logout/route.ts:5-9 | in the model's cookie jar (a cookie replaces the one of the same name; an expired one removes it), after the login cookie the signed token is sent, and after the logout cookie no token is sent and every gate answers 401 |
| Middleware.RedirectTo | middleware.ts:8-25 | a redirect keeps the cloned URL and replaces only its pathname |
| Middleware.Decide | middleware.ts:5-30 | a path outside `/admin/manage-users` passes; inside it, a missing token or a throwing verify redirects to `/admin/login`, a role other than the literal 'superadmin' redirects to `/admin/unauthorized`, and only 'superadmin' passes |
| Middleware.StoredSuperAdminIsTurnedAway | middleware.ts:19 | a token minted for a stored 'SUPER_ADMIN' is always redirected to `/admin/unauthorized`, although create-user's gate admits the same token |
| CreateUser.DerivedUsername | app/api/admin/create-user/route.ts:32 | a truthy username is kept; otherwise the username is the longest prefix of the email before its first '@', or the whole email when it has none |
| CreateUser.CreateUser | app/api/admin/create-user/route.ts:8-54 | the SUPER_ADMIN-only gate runs first (401, 500, 403); a body that is not JSON or has no email gives 500; an email already present gives 409 even without a password; a new email without a password, or a row the store refuses (such as a role outside the enumeration), gives 500; 201 holds exactly when admitted with a new email, a password and a row the store accepts, it appends exactly one row holding the derived username, the hashed password and the role (default 'ADMIN'), and replies with id, username, email and role; nothing else writes |
| CreateUser.Profile | app/api/admin/create-user/route.ts:43-48 | the reply's admin: id, username, email and role, no password |
| CreateUser.NewRow | app/api/admin/create-user/route.ts:28-37 | the inserted row: the username, or the email's part before '@' when none is sent, the email, the hash of the password and the role |
| ManageAdmins.ListAdmins | app/api/admin/manage/route.ts:6-11 | without any session check, one entry per admin in table order, holding only id, email and createdAt |
| ManageAdmins.ListingIdsDistinct | app/api/admin/manage/route.ts:7-10 | in a well-formed table the listing names each admin once |
| ManageAdmins.RemoveAtKeepsTableOk | app/api/admin/manage/route.ts:22 | deleting one row keeps ids and emails unique and leaves no row with the deleted id |
| ManageAdmins.AfterDelete | app/api/admin/manage/route.ts:13-24 | a table of at most one admin is never changed; an admin who created a question or an exam is never removed; otherwise the table is unchanged or exactly one row shorter |
| ManageAdmins.DeleteAdmin | app/api/admin/manage/route.ts:13-24 | with no session check: count ≤ 1 gives 403 `At least one admin required` and changes nothing; an unreadable body, a missing id, an unknown id or an admin a question or an exam still names as creator gives the framework's 500 and deletes nothing; 200 holds exactly when the count is ≥ 2, the id exists and no question or exam names it, and then exactly that row is gone and every other row stays |
| ManageAdmins.LastAdminSurvives | app/api/admin/manage/route.ts:17-23 | from a table with at least one admin, any sequence of DELETE requests leaves at least one |
| ManageAdmins.Summary | app/api/admin/manage/route.ts:8-10 | `select: { id, email, createdAt }`: only those three columns |
| ManageAdmins.Owned | app/api/admin/manage/route.ts:22 | a question or an exam names the admin as its creator, so the foreign key keeps the row |
| ManageAdmins.AfterDeletes | app/api/admin/manage/route.ts:13-24 | the admin table after a series of DELETE requests, in order |
| ManageAdmins.AuthorsSurvive | app/api/admin/manage/route.ts:13-24 | an admin who created a question or an exam is still in the table after any series of DELETE requests |
| ResetAdmin.DefaultAdmin | app/api/reset-admin/route.ts:16-27 | the default admin has email 'admin@example.com', role 'SUPER_ADMIN' and the hash of 'admin123' as password |
| ResetAdmin.Reset | app/api/reset-admin/route.ts:5-50 | with no session check, the question and exam tables end empty and the admin table holds exactly the default admin; the reply echoes its profile, the result of checking 'admin123' against the new hash, and the plaintext credentials |
| ResetAdmin.ResetCredentialsSignIn | app/api/reset-admin/route.ts:30-44 | after a reset the echoed credentials sign in exactly when the reported password test is true, they name the only admin, and that admin is a super admin |
| CreateAdminScript.CreateDefaultAdmin | scripts/create-admin.ts:7-36 | creates the account exactly when no admin has 'admin@example.com', and then appends exactly the default admin; otherwise nothing is written; either way exactly one admin holds that email afterwards, so a second run is a no-op |
| Db.FindBy | app/api/admin/login/route.ts:13 | the first row with the key, and none exactly when no row has it |
| Db.FindByAppend | prisma/seed.ts:178-186 | appending rows leaves the first match where it was, or finds it among the appended rows |
| Db.FindOrCreateSnoc | prisma/seed.ts:66-85 | the find-or-create loop over one more item is one more pass |
| Db.FindOrCreateGrows | prisma/seed.ts:66-85 | a find-or-create loop only appends, one id per new row |
| Db.FindOrCreateKeepsFound | prisma/seed.ts:66-85 | a row the loop finds stays the first match |
| Db.FindOrCreatePresent | prisma/seed.ts:66-85 | after the loop every item's key is in the table |
| Db.FindOrCreateMakes | prisma/seed.ts:47-53 | each added row is made from one of the items, with consecutive ids |
| Db.FindOrCreateNoRepeat | prisma/seed.ts:66-85 | no added row repeats the key of an earlier row |
| Db.FindOrCreateNoop | prisma/seed.ts:10-205 | when every item is already present the loop changes nothing |
| Db.AdminTableOkGrows | prisma/seed.ts:31-205 | handing out more ids keeps the admin table well formed |
| Db.CountEmail | scripts/create-admin.ts:12 | the number of admins with an email is zero exactly when the lookup finds none |
| Db.CountEmailUnique | scripts/create-admin.ts:12-29 | with unique emails at most one admin holds any email |
| Db.Database.constructor | prisma/seed.ts:4 | a new store has every table empty and the counter at 0 |
| Db.Database.NewId | app/api/admin/create-user/route.ts:30-37 | a fresh id is the counter, which then moves on by one |
| Db.Database.InsertAdmin | app/api/admin/create-user/route.ts:30-37 | appends exactly one admin under a fresh id, for an email no admin has, keeping the table well formed |
| Db.FindOrCreateStep | prisma/seed.ts:47-53 | one pass of a find-then-create loop: an item whose key is in the table changes nothing, any other adds `make(id, item)` under the next id |
| Db.FindOrCreate | prisma/seed.ts:66-85 | the find-then-create loop over the items, in order |
| Db.AdminTableOk | app/api/admin/create-user/route.ts:22-37 | what the unique keys on admins guarantee: ids below the counter, no repeated id or email |
| Db.HasAdmin | app/api/questions/route.ts:35 | the foreign key `createdById`: an admin row has the id |
| Db.HasExam | app/api/questions/route.ts:74-82 | the foreign key `examId`: an exam row has the id |
| Db.EnumFilterOk | app/api/questions/route.ts:106-115 | a filter parameter that is missing or empty is dropped; any other must be one of the enumeration's values |
| Seed.CatTemplateConsistent | prisma/seed.ts:94-144 | the CAT template's three section time limits sum to its total of 120, each section's count is the sum of its difficulty counts, sections are numbered from 1, and all but the last lock after their own time |
| Seed.SampleAnswersAreRight | prisma/seed.ts:149-176 | each sample's answer letter 'C' names an existing option, '12' and '6', the values the explanations derive |
| Seed.SeedAdmin | prisma/seed.ts:10-29 | the check is by role: an existing super admin's id is used; otherwise the default admin is created, unless its email is taken, which stops the script before any write |
| Seed.SeedTags | prisma/seed.ts:47-53 | the tag loop is the find-or-create loop by name; an existing tag is left as it is |
| Seed.SeededTagsAreDefaults | prisma/seed.ts:32-53 | every tag the loop adds is a default tag with its colour, and none repeats an earlier name |
| Seed.SeedBanks | prisma/seed.ts:66-85 | the bank loop is the find-or-create loop on (subject, category, subcategory), where a null subcategory matches only null |
| Seed.SeedTemplate | prisma/seed.ts:89-146 | the template is created only when none is named 'CAT Standard Pattern', and afterwards one is |
| Seed.LinksComplete | prisma/seed.ts:189-203 | every sample question created with a bank in its subject and category is linked to the first such bank |
| Seed.LinksSound | prisma/seed.ts:189-203 | every bank link made for the samples is the one link of one created question, and there are no more links than questions |
| Seed.LinksSnoc | prisma/seed.ts:178-205 | the links of one more question are the earlier links plus its own |
| Seed.AddedLinks | prisma/seed.ts:183-204 | one pass adds the link of the question it creates, if any |
| Seed.AddSampleQuestion | prisma/seed.ts:179-204 | a sample is inserted only when no question has its content, and then linked to the first bank in its area, if any |
| Seed.SeedQuestions | prisma/seed.ts:178-205 | the sample loop is the find-or-create loop by content, and the link table gains exactly the links of the created questions |
| Seed.TagStepFacts | prisma/seed.ts:47-53 | the tag step only appends, makes every default tag present, and changes nothing when all were there |
| Seed.BankStepFacts | prisma/seed.ts:66-85 | the bank step only appends, makes every default bank present, and changes nothing when all were there |
| Seed.QuestionStepFacts | prisma/seed.ts:178-205 | the question step only appends, makes both samples present, and changes nothing when both were there |
| Seed.SeedTemplateStep | prisma/seed.ts:89-146 | the template step only appends and changes nothing when the template exists |
| Seed.SeedTagsStep | prisma/seed.ts:47-53 | the tag step on the store only appends and is a no-op on seeded tags |
| Seed.SeedBanksStep | prisma/seed.ts:66-85 | the bank step on the store only appends and is a no-op on seeded banks |
| Seed.SeedQuestionsStep | prisma/seed.ts:178-205 | the question step on the store only appends and is a no-op on seeded questions |
| Seed.SeedTaxonomy | prisma/seed.ts:47-85 | tags then banks: only appends, both complete afterwards, a no-op when both were |
| Seed.SeedExamContent | prisma/seed.ts:89-205 | template then samples: only appends, both complete afterwards, a no-op when both were |
| Seed.SeedContent | prisma/seed.ts:31-205 | everything after the admin: only appends, everything present afterwards, a no-op on a seeded store |
| Seed.SeedAfterAdmin | prisma/seed.ts:31-205 | on a store with a super admin the rest of the script leaves it seeded and well formed, and is a no-op when it was seeded |
| Seed.RunSeed | prisma/seed.ts:6-209 | the script stops before any write exactly when no super admin exists and the default email is taken; otherwise the store ends seeded; it only adds rows, and a second run changes nothing |
| Seed.CatTemplate | prisma/seed.ts:94-144 | the CAT template row under a given id: name, exam, description, 120 minutes, the flags, instructions and three sections |
| Seed.AnswerOption | prisma/seed.ts:149-176 | the option a one-letter answer names, 'A' being the first, if there is one |
| Seed.MakeTag | prisma/seed.ts:47-52 | a created default tag: its name and its colour |
| Seed.MakeBank | prisma/seed.ts:76-83 | a created bank: name, subject, category, no subcategory, description or colour |
| Seed.MakeQuestion | prisma/seed.ts:178-186 | a created sample question, attributed to the super admin |
| Seed.TagsSeeded | prisma/seed.ts:47-53 | every default tag name is in the table |
| Seed.BanksSeeded | prisma/seed.ts:66-85 | every default bank's (subject, category, subcategory) is in the table |
| Seed.QuestionsSeeded | prisma/seed.ts:178-186 | every sample's content is in the table |
| Seed.Seeded | prisma/seed.ts:10-205 | a super admin, the default tags and banks, the CAT template and both samples are present |
| Seed.LinkOf | prisma/seed.ts:189-203 | the link made for a new question: to the first bank with its subject and category, or none |
| Seed.Links | prisma/seed.ts:178-205 | the links made for a series of new questions, in order |
| Questions.Upsert | app/api/questions/route.ts:42-46 | the upsert is one find-or-create pass by name with an empty update, and the id returned is that of the tag now holding the name |
| Questions.TagLoopSnoc | app/api/questions/route.ts:41-53 | the tag loop over one more name is one more pass, unless a link create already threw |
| Questions.TagLoopStopsAtFailure | app/api/questions/route.ts:41-53 | once a link create throws, the remaining names are never reached |
| Questions.UpsertTag | app/api/questions/route.ts:42-46 | the upsert on the store is `Upsert` |
| Questions.AddTags | app/api/questions/route.ts:40-54 | the loop on the store leaves the tags, counter and links that `TagLoop` gives, and reports whether a link create threw, either on a refused write or on a (question, tag) link this request already wrote |
| Questions.UpsertKeeps | app/api/questions/route.ts:42-46 | an upsert only appends, and a tag it does not create is found where it was |
| Questions.TagLoopTable | app/api/questions/route.ts:41-53 | when no link is refused, the tag table afterwards is the plain find-or-create over the names |
| Questions.TagLoopLinksEveryName | app/api/questions/route.ts:41-53 | when no link is refused there is one link per name, in order, to the tag that then has that name |
| Questions.TagLoopGrows | app/api/questions/route.ts:41-53 | the tag loop only appends tags and never reuses ids |
| Questions.StepLinksNames | app/api/questions/route.ts:41-53 | a pass that writes its link keeps one link per name processed, to the tag with that name |
| Questions.UpsertTagsOk | app/api/questions/route.ts:42-46 | an upsert keeps the tag keys: ids below the counter, distinct ids, distinct names |
| Questions.TagLoopTagsOk | app/api/questions/route.ts:41-53 | the tag loop keeps those keys |
| Questions.TagLoopLinksDistinct | app/api/questions/route.ts:47-52 | the loop never writes the same (question, tag) link twice |
| Questions.TagLoopNamesDistinct | app/api/questions/route.ts:41-53 | a loop that ends without a throw had no repeated tag name |
| Questions.FreshLink | app/api/questions/route.ts:42-52 | with distinct tag keys, a name not among the earlier ones gets a link none of the earlier links equals |
| Questions.TagLoopNeverFails | app/api/questions/route.ts:41-53 | with distinct tag keys and a store that refuses nothing, names without repeats never stop the tag loop |
| Questions.LinkQuestion | app/api/questions/route.ts:57-83 | the bank and exam steps on the store are `Linked`: an exam link whose exam id names no exam, or that the store refuses, answers 500 |
| Questions.CreateQuestion | app/api/questions/route.ts:7-90 | the POST on the store and its response are `PostOutcome` of the old store, the gate and the body. A token whose id names no admin gives 500 and writes nothing; a repeated (question, tag) link fails the tag loop; an exam id that names no exam fails the exam link |
| Questions.PostWritesNothingBeforeTheQuestion | app/api/questions/route.ts:9-37 | a refused token, a body that is not JSON, a token whose id names no admin, or a question the store refuses writes nothing; the refusal's status, or 500, is returned |
| Questions.LinkedFacts | app/api/questions/route.ts:57-85 | the bank and exam steps only append to their two link tables; a 201 adds exactly the requested links and means a named exam exists; an exam id that names no exam answers 500 and adds no exam link |
| Questions.CreatedFacts | app/api/questions/route.ts:39-85 | the steps after the question row keep questions, banks, admins and exams, and only append elsewhere. A 201 has written exactly the tag loop's tags and links and the requested bank and exam links, and a named exam exists |
| Questions.PostKeepsTheQuestion | app/api/questions/route.ts:20-89 | once the question row is written (admitted, the token's id names an admin, the row accepted) it stays, with createdById the token's id, even when a later write turns the answer into 500; the later writes only append |
| Questions.PostCreated | app/api/questions/route.ts:20-85 | a 201 means admitted with a JSON body, an admin with the token's id exists, and a named exam exists. Every tag name is then in the tag table, existing tags are kept, and there is one link per name to the tag with that name. The bank link is made exactly when assignToBank is truthy and a bank matches (subject, category), and the exam link exactly when an exam is given. No tag name repeats |
| Questions.PostSucceedsWithoutRefusals | app/api/questions/route.ts:20-85 | with distinct tag keys and a store that refuses nothing, an admitted JSON body is answered with 201 exactly when the token's id names an admin, a named exam exists and no tag name repeats |
| Questions.LinksOf | app/api/questions/route.ts:112-114 | every tag link listed for a question has that question's id and is in the link table, and every such link is listed |
| Questions.ListQuestions | app/api/questions/route.ts:92-122 | the gate's refusal is returned as is. An admitted request whose subject or difficulty is present, non-empty and outside its enumeration gets 500. Otherwise 200 with the questions, in table order, whose subject and difficulty match each parameter that is present and non-empty, each with its tag links |
| Questions.FilterSame | app/api/questions/route.ts:106-108 | two tests that agree on every element filter a table alike, so the `where` object built field by field selects the same questions as the filter it stands for |
| Questions.AsName | app/api/questions/route.ts:43 | `where: { name }`: a tag is looked up by its name |
| Questions.NamedTag | app/api/questions/route.ts:45 | `create: { name }`: a new tag has the name and no colour |
| Questions.TagStep | app/api/questions/route.ts:42-52 | one name: the upsert, then the link; a link already written by this request or refused by the store fails the loop |
| Questions.TagLoop | app/api/questions/route.ts:40-54 | the loop over the names in order, stopping at the first link that fails |
| Questions.LinksNames | app/api/questions/route.ts:41-53 | the links are one per name, in order, each to the tag with that name |
| Questions.NoRepeats | app/api/questions/route.ts:41 | no element occurs twice |
| Questions.TagsOk | app/api/questions/route.ts:42-46 | what the tag table's keys guarantee: ids below the counter, no repeated id or name |
| Questions.TagNames | app/api/questions/route.ts:40 | `tags && tags.length > 0`: the names when sent and non-empty, else none |
| Questions.BankLink | app/api/questions/route.ts:57-69 | when asked, the link to the first bank with the question's subject and category, or none |
| Questions.ExamLink | app/api/questions/route.ts:72-83 | when an exam is named, the link to it at order 1 |
| Questions.Linked | app/api/questions/route.ts:56-85 | the bank step, then the exam step. A refused bank link, or an exam link whose exam is missing or refused, answers 500 and keeps what was written before it; otherwise 201 with the question |
| Questions.Created | app/api/questions/route.ts:39-85 | the tag loop after the question row; a failed tag link answers 500 with the earlier writes kept; otherwise the bank and exam steps |
| Questions.NewQuestionRow | app/api/questions/route.ts:20-36 | the question row: the request's data, attributed to the signed-in admin |
| Questions.PostOutcome | app/api/questions/route.ts:7-90 | the route on the store: the gate's refusal; 500 for a body that is not JSON, a token whose id names no admin, or a refused question row, writing nothing; otherwise the row under the next id, then the tags, bank and exam steps |
| Questions.Requested | app/api/questions/route.ts:103-108 | each of subject and difficulty that is present and non-empty must match |
| Questions.Matches | app/api/questions/route.ts:110-111 | the `where` object: each field it holds must match |
| Upload.UploadName | app/api/upload/route.ts:34 | the file name is the decimal timestamp, a '-', then the client's name, so the part before the first '-' is the timestamp |
| Upload.Segments | app/api/upload/route.ts:31-35 | a path always has at least one segment |
| Upload.SegmentsWithoutSlash | app/api/upload/route.ts:31-35 | a name without '/' is one segment |
| Upload.SegmentsAtSlash | app/api/upload/route.ts:31-35 | a '/' after a segment starts the next one |
| Upload.ResolveDown | app/api/upload/route.ts:31-35 | a segment other than '', '.' and '..' descends into it |
| Upload.ResolveUp | app/api/upload/route.ts:31-35 | '..' below the root goes up one level |
| Upload.UploadDir | app/api/upload/route.ts:31 | the upload directory is the working directory's public/uploads |
| Upload.StampedName | app/api/upload/route.ts:34 | a stored name made from an original name without '/' has no '/' and is not '', '.' or '..' |
| Upload.PlainNameStaysInUploads | app/api/upload/route.ts:31-38 | an original name without '/' is written to public/uploads under exactly the record's file name |
| Upload.ParentSegmentsEscapeUploads | app/api/upload/route.ts:31-38 | an original name `x/../../logo.png` is written to public/logo.png, outside the upload directory, at any time |
| Upload.UpTwoLevels | app/api/upload/route.ts:31-38 | an original name `d/../../n` is written to public/n |
| Upload.UpOneLevel | app/api/upload/route.ts:31-38 | an original name `d/../b.png` is written to public/uploads/b.png |
| Upload.DifferentNamesShareAFile | app/api/upload/route.ts:31-38 | `a/../b.png` and `c/../b.png` in the same millisecond get different record names but the same file |
| Upload.UploadImage | app/api/upload/route.ts:9-57 | the upload on the store and its response are `UploadOutcome`, which writes the bytes at the path `path.join` resolves |
| Upload.UploadNamesDistinct | app/api/upload/route.ts:34 | two uploads get the same file name only with the same timestamp and the same client name |
| Upload.UploadStoresWhatItRecords | app/api/upload/route.ts:11-52 | 201 holds exactly when admitted with an image and a questionId that is absent or names a question; every other outcome writes nothing; a 201 writes exactly the bytes at the path `path.join` resolves from the new name (public/uploads/<name> when the client's name has no '/'), adds no other path, keeps every other file, and appends one record with path '/uploads/' + name, the byte length, the client's name and type, uploadedBy the token's id and the questionId as given |
| Upload.Resolve | app/api/upload/route.ts:35 | `path.join`'s normalisation: '' and '.' stay, '..' goes up but never above the root, any other segment goes down |
| Upload.Join | app/api/upload/route.ts:31-35 | `path.join(dir, rel)`: the relative path's segments resolved from the directory |
| Upload.StoredPath | app/api/upload/route.ts:35 | where the bytes are written: the stored name joined onto public/uploads |
| Upload.Record | app/api/upload/route.ts:40-50 | the record: original name, stored name, '/uploads/' plus the stored name, byte count, MIME type, uploader and question id |
| Upload.UploadOutcome | app/api/upload/route.ts:9-57 | the route on the store: the gate's refusal; 500 for a body that is not a form; 400 for a missing image or an unknown question id; otherwise the bytes at the stored path and the record under the next id, 201 |
| QuestionBanks.CreateBank | app/api/question-banks/route.ts:7-36 | the POST on the bank table and counter and its response are `BankPost` |
| QuestionBanks.BankLinks | app/api/question-banks/route.ts:54-57 | every question link listed for a bank has that bank's id and is in the link table, and every such link is listed |
| QuestionBanks.ListBanks | app/api/question-banks/route.ts:38-64 | the gate's refusal is returned as is. An admitted request whose subject is present, non-empty and outside the enumeration gets 500. Otherwise 200 with the banks, in table order, whose subject matches the parameter when it is present and non-empty, each with its question links |
| QuestionBanks.CreatedBankIsListed | app/api/question-banks/route.ts:20-57 | after a 201 the new bank is listed by every GET whose subject filter it matches and every bank listed before stays listed; in the model's table order it comes last |
| QuestionBanks.BankPostAddsOneBank | app/api/question-banks/route.ts:9-35 | 201 holds exactly when admitted with a JSON body the store accepts, and then exactly one bank is added, holding the six body fields and a fresh id; any other outcome writes nothing |
| QuestionBanks.NewBankRow | app/api/question-banks/route.ts:20-29 | the bank row: the six body fields under the given id |
| QuestionBanks.BankPost | app/api/question-banks/route.ts:7-36 | the route on the bank table and counter: the gate's refusal; 500 for a body that is not JSON or a refused create, writing nothing; otherwise 201 with the new bank, appended under the next id |
| QuestionBanks.Shown | app/api/question-banks/route.ts:51-52 | a bank is listed when the subject parameter is missing or empty, or equals its subject |
| QuestionBanks.ShownBanks | app/api/question-banks/route.ts:51-57 | the banks the GET lists for a subject parameter |
| QuestionBanks.ListedBanks | app/api/question-banks/route.ts:54-59 | the banks of a listing, without their links |
| BulkQuestions.Prepared | app/api/questions/bulk/route.ts:22-24 | each question keeps its fields, except options, which becomes [] when missing |
| BulkQuestions.BulkRows | app/api/questions/bulk/route.ts:20-26 | one row per input question, in order, with consecutive ids, createdById the token's id and the prepared fields |
| BulkQuestions.CreateQuestions | app/api/questions/bulk/route.ts:7-36 | the POST on the question table and counter and its response are `BulkPost`, checked against the stored admins |
| BulkQuestions.BulkIsAllOrNothing | app/api/questions/bulk/route.ts:9-35 | 201 holds exactly when admitted with a question list, the token's id names an admin (unless the list is empty), and the store refuses none of the list. Then every question is stored and the count is the number of inputs; any other outcome stores none |
| BulkQuestions.BulkKeepsIdsFresh | app/api/questions/bulk/route.ts:19-27 | distinct ids below the counter stay so after the transaction |
| BulkQuestions.PreparedIdempotent | app/api/questions/bulk/route.ts:24 | defaulting options twice is defaulting them once |
| BulkQuestions.AnyRefused | app/api/questions/bulk/route.ts:19-27 | some item's create is refused, which rolls the transaction back |
| BulkQuestions.AnyFails | app/api/questions/bulk/route.ts:19-27 | some create of the transaction throws: the list is not empty and the token's id names no admin, or the store refuses a row |
| BulkQuestions.BulkPost | app/api/questions/bulk/route.ts:7-36 | the route on the question table and counter: the gate's refusal; or 500, writing nothing, when the body is not JSON, has no `questions`, or one create throws; otherwise 201 with the count, every item stored in order under consecutive ids |
| QuestionAnalytics.QuestionStatsGet | app/api/questions/analytics/route.ts:7-34 | the gate's refusal is returned as is; a missing questionId gives 400; 404 exactly when no question has the id; a 200 carries the statistics of a question with that id, and nothing else |
| QuestionAnalytics.StatsOfTheQuestion | app/api/questions/analytics/route.ts:22-29 | with unique ids, asking for a stored question's id returns exactly its statistics |
| BulkUpload.RowLoopSnoc | app/api/bulk-upload/route.ts:17-27 | the row loop over one more row is one more pass |
| BulkUpload.UploadStudents | app/api/bulk-upload/route.ts:5-29 | with no session check, a body that is not a form gives the framework's 500, a missing file 400 `No file uploaded`, a parse failure 400 `CSV parse failed`, none of them writing; otherwise the students, the counter and the reply's results are those of `RowLoop` |
| BulkUpload.ColumnsOf | app/api/bulk-upload/route.ts:20-22 | the username, email and password of each stored student |
| BulkUpload.OneResultPerRow | app/api/bulk-upload/route.ts:17-27 | there is exactly one result per parsed row, in row order, with that row's email and status 'created' or 'duplicate/error' |
| BulkUpload.CreatedRowsStoredVerbatim | app/api/bulk-upload/route.ts:17-27 | the students appended are exactly the rows reported 'created', in order, with their columns (the password as given), consecutive ids and the same creation time; a row whose email is already stored, or that the store refuses, stores nothing and the loop goes on |
| BulkUpload.EmailTaken | app/api/bulk-upload/route.ts:20-22 | the unique key on student emails: a stored student already has the email |
| BulkUpload.RowStep | app/api/bulk-upload/route.ts:19-26 | one row: a taken email or a refused create records 'duplicate/error' and stores nothing; otherwise the student is stored under the next id and 'created' is recorded |
| BulkUpload.RowLoop | app/api/bulk-upload/route.ts:18-27 | the row loop, in order, going on after a failed row |
| BulkUpload.Accepted | app/api/bulk-upload/route.ts:17-27 | the rows whose result is 'created', in order |
| BulkUpload.Columns | app/api/bulk-upload/route.ts:20-22 | the username, email and password a stored student was made from |
| BulkUpload.EmailsUnique | app/api/bulk-upload/route.ts:20-22 | no two students share an email |
| BulkUpload.UploadKeepsEmailsUnique | app/api/bulk-upload/route.ts:17-27 | an upload keeps student emails unique, for any rows and any store refusals |
| AuditLogs.Insert | app/api/audit-logs/route.ts:6-9 | inserting one log keeps every log and adds that one |
| AuditLogs.NewestFirst | app/api/audit-logs/route.ts:6-9 | the ordering step is a permutation of the logs |
| AuditLogs.NotAfterTotal | app/api/audit-logs/route.ts:7 | any two creation times are ordered one way or the other |
| AuditLogs.NotAfterTransitive | app/api/audit-logs/route.ts:7 | the order on creation times is transitive |
| AuditLogs.InsertUnderHead | app/api/audit-logs/route.ts:6-9 | inserting a log no newer than the head keeps every log under the head |
| AuditLogs.ConsDescending | app/api/audit-logs/route.ts:6-9 | a log no older than any of a newest-first list can go in front of it |
| AuditLogs.InsertDescending | app/api/audit-logs/route.ts:6-9 | insertion keeps a list newest first |
| AuditLogs.NewestFirstDescending | app/api/audit-logs/route.ts:7 | the ordering step gives the logs newest first |
| AuditLogs.WithUser | app/api/audit-logs/route.ts:12-25 | the log is kept whole; username and email are both set or both null; they are set exactly when userId is present and names a row of the admin table for 'admin' or of the student table for 'student', and are null for any other userType |
| AuditLogs.Take | app/api/audit-logs/route.ts:8 | the first n elements, or all of them when there are fewer |
| AuditLogs.AuditLogsGet | app/api/audit-logs/route.ts:4-28 | with no session check, always 200, with min(count, 100) entries |
| AuditLogs.AuditLogsAreTheNewest | app/api/audit-logs/route.ts:6-27 | entry i is the i-th newest log joined to its user, in the same order; the entries are newest first and none left out is newer than one returned; with at most 100 logs every log is returned exactly once |
| AuditLogs.Descending | app/api/audit-logs/route.ts:7 | `orderBy: { createdAt: "desc" }`: no log in the list is newer than one before it |
| StudentGrowth.MonthsBack | app/api/student-growth/route.ts:7-8 | the month `back` months before the current one, counted across year boundaries |
| StudentGrowth.Keys | app/api/student-growth/route.ts:6-10 | exactly 7 keys, key i being the month 6 − i months back |
| StudentGrowth.CreatedIn | app/api/student-growth/route.ts:18 | exactly the students whose ISO creation month equals the key |
| StudentGrowth.GrowthGet | app/api/student-growth/route.ts:4-22 | with no session check, always 200 with 7 points in key order, point i having the key from index 5 as date and the number of students created in that key's month |
| StudentGrowth.MonthIndexInjective | app/api/student-growth/route.ts:8-9 | a month count identifies year and month |
| StudentGrowth.KeysAreConsecutiveMonths | app/api/student-growth/route.ts:6-10 | the last key is the current month and each key is the month after the one before it |
| StudentGrowth.LeadingZeros | app/api/student-growth/route.ts:9 | zero padding keeps a decimal string's digits and value |
| StudentGrowth.PaddedDigitsValue | app/api/student-growth/route.ts:9 | a zero-padded number still reads back as itself |
| StudentGrowth.DigitCount | app/api/student-growth/route.ts:9 | the width of a number's decimal form for numbers of one to four digits |
| StudentGrowth.KeyMeansMonth | app/api/student-growth/route.ts:9-18 | for four-digit years the key is 'YYYY-MM', 7 characters, its date label is the two-digit month, and a student is counted exactly when created in that year and month |
| StudentGrowth.MonthIndex | app/api/student-growth/route.ts:8 | a month as the count of months since January of year 0 |
| StudentGrowth.MonthKey | app/api/student-growth/route.ts:9 | the key: the year, '-', and the month padded to two digits |
| StudentGrowth.KeyAt | app/api/student-growth/route.ts:6-10 | key `i`: the month `6 - i` months back |
| StudentGrowth.IsoMonth | app/api/student-growth/route.ts:18 | `toISOString().slice(0, 7)`: the year padded to four digits, '-', the month padded to two |
| StudentGrowth.Drop | app/api/student-growth/route.ts:17 | `slice(n)`: the string without its first `n` characters, empty when shorter |
| TestCreator.QuestionList.constructor | components/TestCreator.tsx:22 | a new questions array is empty |
| TestCreator.PatchSection | components/TestCreator.tsx:61-65 | a section update overwrites only the given fields and keeps the same questions array |
| TestCreator.PatchQuestion | components/TestCreator.tsx:77-88 | a question update overwrites only the given fields |
| TestCreator.WithOption | components/TestCreator.tsx:186-191 | an option edit replaces exactly one position |
| TestCreator.Creator.constructor | components/TestCreator.tsx:31-41 | no sections; exam and test type as given, or '' and 'Full-Length' when the prop is left out; start and end times as given when truthy, else '' |
| TestCreator.Creator.AddSection | components/TestCreator.tsx:43-53 | appends one section ('', 0, unlocked) with a fresh empty questions array and keeps the others |
| TestCreator.Creator.RemoveSection | components/TestCreator.tsx:55-59 | removes exactly the section at the index, keeping the order of the rest; an index past the end changes nothing |
| TestCreator.Creator.UpdateSection | components/TestCreator.tsx:61-65 | replaces only section i by its patched copy; every question list is unchanged |
| TestCreator.Creator.AddQuestion | components/TestCreator.tsx:67-75 | pushes a question with four empty options onto that section's shared array, so the array the previous state holds grows too; no other section changes |
| TestCreator.Creator.UpdateQuestion | components/TestCreator.tsx:77-88 | merges the patch into question (s, q) only, in the shared array |
| TestCreator.Creator.EditOption | components/TestCreator.tsx:186-191 | replaces exactly one option of one question |
| CreateTestPage.PageSection.constructor | app/admin/dashboard/create-test/page.tsx:15-17 | a section object with the given four fields |
| CreateTestPage.Changed | app/admin/dashboard/create-test/page.tsx:34-38 | a change sets exactly the one named key |
| CreateTestPage.TestPage.Values | app/admin/dashboard/create-test/page.tsx:15-17 | one value per section object |
| CreateTestPage.TestPage.constructor | app/admin/dashboard/create-test/page.tsx:10-20 | exactly one section ('', 60, 20, unlocked); exam 'CAT', type 'Full-Length', empty name and dates; solutions shown, no shuffling |
| CreateTestPage.TestPage.AddSection | app/admin/dashboard/create-test/page.tsx:24-26 | appends a fresh section ('', 30, 10, unlocked) and keeps the others |
| CreateTestPage.TestPage.RemoveSection | app/admin/dashboard/create-test/page.tsx:28-32 | removes only the section at the index; the button exists only while there are two or more, so one always remains |
| CreateTestPage.TestPage.ChangeSection | app/admin/dashboard/create-test/page.tsx:34-38 | sets one key of one section object in place, leaving the other sections unchanged |
| CreateTestPage.TestPage.Submit | app/admin/dashboard/create-test/page.tsx:40-58 | the payload carries the form fields, the sections' values and the three settings flags; nothing is sent, and the page goes to `/admin/dashboard/exams` |
| DashboardBuilder.BuilderSection.constructor | app/admin/dashboard/components/CreateTestBuilder.tsx:15 | a section with empty-string fields, unlocked |
| DashboardBuilder.Changed | app/admin/dashboard/components/CreateTestBuilder.tsx:28-32 | a change sets exactly the one named field |
| DashboardBuilder.Toggled | app/admin/dashboard/components/CreateTestBuilder.tsx:147-149 | the lock button flips isLocked and nothing else |
| DashboardBuilder.ToggleTwiceRestores | app/admin/dashboard/components/CreateTestBuilder.tsx:147-149 | two clicks restore the section |
| DashboardBuilder.Builder.Values | app/admin/dashboard/components/CreateTestBuilder.tsx:14-16 | one value per section object |
| DashboardBuilder.Builder.constructor | app/admin/dashboard/components/CreateTestBuilder.tsx:10-16 | exactly one empty section; exam 'CAT', type 'Full Length', empty dates |
| DashboardBuilder.Builder.AddSection | app/admin/dashboard/components/CreateTestBuilder.tsx:18-20 | appends a fresh empty section and keeps the others |
| DashboardBuilder.Builder.RemoveSection | app/admin/dashboard/components/CreateTestBuilder.tsx:22-26 | removes only the section at the index; the button exists only while there are two or more |
| DashboardBuilder.Builder.ChangeSection | app/admin/dashboard/components/CreateTestBuilder.tsx:28-32 | sets one field of one section object in place |
| DashboardBuilder.Builder.ToggleLock | app/admin/dashboard/components/CreateTestBuilder.tsx:146-149 | flips the lock of one section in place |
| DashboardBuilder.Builder.Submit | app/admin/dashboard/components/CreateTestBuilder.tsx:34-45 | the payload carries the form fields and the sections' values; nothing is sent |
| ExamBuilder.DefaultFormInvalid | app/admin/dashboard/exam-management/components/CreateTestBuilder.tsx:82-89 | the default form, which `reset()` restores, fails the schema: it has no title and its one section has no question (its 60 minutes are valid) |
| ExamBuilder.TotalTimeAppend | app/admin/dashboard/exam-management/components/CreateTestBuilder.tsx:105-106 | the total time of two section lists is the sum of their totals |
| ExamBuilder.ValidTotalTime | app/admin/dashboard/exam-management/components/CreateTestBuilder.tsx:34-37 | in a form that passes the schema each section counts for 1 to 180 minutes of the total |
| ExamBuilder.AutoFilled | app/admin/dashboard/exam-management/components/CreateTestBuilder.tsx:366-377 | a TRUE_FALSE question (an empty type counting as MCQ) with fewer than two options gets exactly True and False; any other question is left alone |
| ExamBuilder.AutoFillSettles | app/admin/dashboard/exam-management/components/CreateTestBuilder.tsx:539-550 | the auto-fill settles after one run, and a TRUE_FALSE question then has at least two options |
| ExamBuilder.NewQuestionNeedsEditing | app/admin/dashboard/exam-management/components/CreateTestBuilder.tsx:312-324 | an added question fails the schema until it has content of 5 characters and a subject of 2 |
| ExamBuilder.NewSection | app/admin/dashboard/exam-management/components/CreateTestBuilder.tsx:205-211 | the added section is titled 'Section k+1' for k existing sections, with 60 minutes, question switch on and no questions |
| ExamBuilder.SectionPosts | app/admin/dashboard/exam-management/components/CreateTestBuilder.tsx:114-128 | one request per question of the section, in order, each carrying the question, the section's title, time and switch, the test's title and switch, the total time and status 'PUBLISHED' |
| ExamBuilder.PostsPerQuestion | app/admin/dashboard/exam-management/components/CreateTestBuilder.tsx:113-131 | a submission has one request per question |
| ExamBuilder.PostsPrefix | app/admin/dashboard/exam-management/components/CreateTestBuilder.tsx:113 | the requests of earlier sections come first |
| ExamBuilder.Attempted | app/admin/dashboard/exam-management/components/CreateTestBuilder.tsx:113-135 | the requests actually sent are a prefix of the submission |
| ExamBuilder.AttemptedAll | app/admin/dashboard/exam-management/components/CreateTestBuilder.tsx:113-131 | when no request throws, all are sent |
| ExamBuilder.AttemptedStops | app/admin/dashboard/exam-management/components/CreateTestBuilder.tsx:134-135 | the first request that throws is the last one sent |
| ExamBuilder.AttemptedIsLongestPrefix | app/admin/dashboard/exam-management/components/CreateTestBuilder.tsx:111-136 | either every request returns and all are sent, or the sending stops right after the first that throws, every earlier one having returned |
| ExamBuilder.PostsThrough | app/admin/dashboard/exam-management/components/CreateTestBuilder.tsx:113-114 | the requests of the sections up to and including section i open the submission |
| ExamBuilder.StopsAt | app/admin/dashboard/exam-management/components/CreateTestBuilder.tsx:114-135 | when request j of section i is the first to throw, the requests sent are those up to and including it, and the submission is not a success |
| ExamBuilder.FormBuilder.constructor | app/admin/dashboard/exam-management/components/CreateTestBuilder.tsx:82-102 | the form starts as the default form, not submitting |
| ExamBuilder.FormBuilder.AppendSection | app/admin/dashboard/exam-management/components/CreateTestBuilder.tsx:205-211 | appends the new section and adds 60 minutes to the total time |
| ExamBuilder.FormBuilder.WithQuestion | app/admin/dashboard/exam-management/components/CreateTestBuilder.tsx:366-377 | replaces one question of one section and nothing else |
| ExamBuilder.FormBuilder.AppendQuestion | app/admin/dashboard/exam-management/components/CreateTestBuilder.tsx:312-324 | appends the default question to that section only |
| ExamBuilder.FormBuilder.RemoveQuestion | app/admin/dashboard/exam-management/components/CreateTestBuilder.tsx:305 | removes exactly that question of that section |
| ExamBuilder.FormBuilder.AutoFill | app/admin/dashboard/exam-management/components/CreateTestBuilder.tsx:366-377 | applies the TRUE_FALSE rule to one question |
| ExamBuilder.FormBuilder.AddOption | app/admin/dashboard/exam-management/components/CreateTestBuilder.tsx:595-605 | for an MCQ question only, appends an empty option |
| ExamBuilder.FormBuilder.RemoveOption | app/admin/dashboard/exam-management/components/CreateTestBuilder.tsx:582-592 | for an MCQ question only, removes exactly that option |
| ExamBuilder.FormBuilder.Submit | app/admin/dashboard/exam-management/components/CreateTestBuilder.tsx:109-139 | a form the schema rejects sends nothing and changes nothing; otherwise the requests sent are those of `Attempted` in section-then-question order; success holds exactly when every request returns, its count is the number of questions and the form is reset; otherwise the form is kept; after a submission that passed the schema, submitting is false again |
| ExamBuilder.OptionValid | app/admin/dashboard/exam-management/components/CreateTestBuilder.tsx:16-19 | an option needs non-empty text |
| ExamBuilder.QuestionValid | app/admin/dashboard/exam-management/components/CreateTestBuilder.tsx:21-32 | content of at least 5 characters, a known type, valid options, a subject of at least 2 characters, a known difficulty |
| ExamBuilder.SectionTimeValid | app/admin/dashboard/exam-management/components/CreateTestBuilder.tsx:36 | a whole number of minutes from 1 to 180 |
| ExamBuilder.SectionValid | app/admin/dashboard/exam-management/components/CreateTestBuilder.tsx:34-39 | a title of at least 2 characters, a valid time, at least one question, every question valid |
| ExamBuilder.TestValid | app/admin/dashboard/exam-management/components/CreateTestBuilder.tsx:41-45 | a title of at least 3 characters and every section valid |
| ExamBuilder.TotalTime | app/admin/dashboard/exam-management/components/CreateTestBuilder.tsx:105-106 | the sum of the section times, NaN counting as 0 |
| ExamBuilder.EffectiveType | app/admin/dashboard/exam-management/components/CreateTestBuilder.tsx:363 | the question type, 'MCQ' when empty |
| ExamBuilder.OptionCount | app/admin/dashboard/exam-management/components/CreateTestBuilder.tsx:366-377 | the number of options, 0 when there is no list |
| ExamBuilder.PostFor | app/admin/dashboard/exam-management/components/CreateTestBuilder.tsx:115-127 | one request body: the question, its section's title, time and switch flag, the test's switch flag, title and total time, status PUBLISHED |
| ExamBuilder.Posts | app/admin/dashboard/exam-management/components/CreateTestBuilder.tsx:113-131 | every request of a submission, section by section, each section's questions in order |
| ExamBuilder.QuestionCount | app/admin/dashboard/exam-management/components/CreateTestBuilder.tsx:113-131 | the number of questions over all sections |
| ExamBuilder.AllReturn | app/admin/dashboard/exam-management/components/CreateTestBuilder.tsx:113-131 | every request's fetch returned |
| ExamBuilder.FormBuilder.Question | app/admin/dashboard/exam-management/components/CreateTestBuilder.tsx:363-377 | question `q` of section `s` of the form |
| Common.Before | app/api/admin/create-user/route.ts:32 | `split(c)[0]` is a prefix without `c`, ending just before the first `c` when there is one |
| Common.PadStart | app/api/student-growth/route.ts:9 | `padStart` leaves a long enough string alone, and otherwise fills it on the left to the width with the fill character, keeping the string at the end |
| Common.NatToString | app/api/upload/route.ts:34 | the decimal form of a number has at least one digit, only digits, no leading zero except for 0, and one digit exactly for numbers below 10 |
| Common.Filter | app/api/questions/route.ts:106-110 | the kept elements are elements of the input that the predicate accepts, every accepted element is kept, and none is added |
| Common.BeforeJoin | app/api/upload/route.ts:34 | the part before the first separator of a joined name is its first piece |
| Common.NatToStringRoundTrip | app/api/upload/route.ts:34 | a number's decimal form reads back as the number |
| Common.NatToStringInjective | app/api/upload/route.ts:34 | different timestamps give different decimal forms |
| Common.FilterAppend | app/api/question-banks/route.ts:54-57 | filtering a table with rows appended filters each part |
| Common.FilterAll | app/api/questions/route.ts:106-110 | a filter that accepts everything keeps the whole table |
| Common.RemoveAt | app/api/admin/manage/route.ts:22 | removing one row keeps the rows before it and shifts the rows after it down by one |
| Common.Splice | components/TestCreator.tsx:57 | `splice(i, 1)` removes row i when it exists and changes nothing otherwise |
| Common.Truthy | app/api/questions/route.ts:107 | a string that may be missing is truthy exactly when present and non-empty |
| Common.StartsWith | middleware.ts:11 | `startsWith`: the prefix order on strings |
| Common.Repeat | app/api/student-growth/route.ts:9 | `n` copies of a character: length `n`, every character that one |
| Common.IsDigit | app/api/upload/route.ts:34 | a decimal digit character |
| Common.DigitChar | app/api/upload/route.ts:34 | the character of a digit below 10 is a digit |
| Common.DigitsValue | app/api/upload/route.ts:34 | the value of a string of decimal digits, most significant first |
| Common.NotAfter | app/api/audit-logs/route.ts:7 | instants compared by year, month, day, then time of day |
| Common.OrZero | app/admin/dashboard/exam-management/components/CreateTestBuilder.tsx:105 | `Number(x) || 0`: NaN and 0 give 0, any other number itself |
| Common.IsInteger | app/admin/dashboard/exam-management/components/CreateTestBuilder.tsx:36 | `Number.isInteger`: a finite number with no fractional part |
| Http.Json | app/api/questions/route.ts:85 | `NextResponse.json(data, { status })`: that status, the data as body, no cookies |
| Http.Fail | app/api/questions/route.ts:88 | `NextResponse.json({ error }, { status })`: that status and the error message |
| Http.Unhandled | app/api/admin/manage/route.ts:13-24 | an exception no handler code catches: the framework's 500 with no body |

## Left out

- JWT signing and verification, Argon2 and bcrypt are parameters; no cryptography is modelled. That a bcrypt compare cannot read an Argon2 hash is captured only in that the two are separate parameters.
- Prisma, the database schema and the file system are in-memory tables and a file map. The schema file is not part of the model. Required fields and enums reach the inserts through the `refuses` parameter, and the enum values the listing filters are checked against through an `enums` argument. Keys over stored rows are checked against the tables. Only questions and exams count as rows that name an admin: other tables that may refer to an admin, such as upload records and audit logs, do not keep an admin from being deleted in the model, and an upload record's `uploadedBy` is not checked against the admin table. In the questions route only the tag links this request writes are checked, and a clash with rows that already carry a new question's id is left to `refuses`. A `mkdir` or `writeFile` failure in the upload route, and a refused upload record, are not modelled. Deleting questions in the reset route does not cascade into the link tables.
- The CSV parser (csv-parse) is a parameter returning rows or failure. A row with missing columns is not modelled.
- `Date.now()` and `new Date()` are arguments. Student growth leaves out the day overflow of `setMonth`, local versus UTC months, and years outside 1000–9999 (`KeyMeansMonth` requires four-digit years). The model does not claim that the seven keys are distinct.
- Concurrency is not modelled: the count-then-delete race in the manage route, `Promise.all` in the audit-log join (only its order is kept), and React Query caching.
- React rendering, hooks and JSX are left out, as are the pages that only fetch, and the library pass-through routes (test-password, notifications, dashboard-analytics, exam-distribution, the Prisma singleton).
- Floating-point values are opaque: the exam link's marks and the question statistics. Section times are JavaScript numbers, finite or NaN, as exact reals.
- Console logging is left out.
- Middleware.Decide: the `matcher` setting that limits where the middleware runs is not modelled. The prefix check inside the function is.
- AuditLogs.NewestFirst: the store's order among logs with equal creation times is not specified. The model uses a stable insertion sort.
- BulkQuestions.Prepared: any other field of an input object, such as its own `id`, is not modelled. Only the schema's question fields go through the spread.
- TestCreator.Creator.UpdateSection requires an index inside the list, and so do UpdateQuestion and EditOption. JavaScript would extend the array for an index past its end. The only callers are rendered rows, so they always pass existing indices.
- Upload.UploadImage: the disk has no directories. A client name with a '/' that leads into a directory that does not exist makes `writeFile` throw in the source (500), while the model stores the file. `path.join` is modelled for POSIX separators only, onto a working directory that is already normalised.
- ExamBuilder.FormBuilder.Submit: `send` reports only whether the fetch and its JSON read returned. The reply's status is not read, so a refused question still counts as created, as in the source. The toasts are not modelled, nor is the draft save (`handleSaveDraft`), nor the option-image upload that sets a field.
- ExamBuilder: edits through `register` (typing into a field) are arbitrary replacements of form values. They are not modelled one by one. Schema lengths count characters, not UTF-16 code units.
- Seed: an id of 0 counts as "no admin" in the source (`!adminId`), while the model takes any found super admin. Ids start at 0 in the model, but the store's own ids are never falsy.
- Request ids and strings that are empty are treated as absent, as the truthiness checks in the routes do. Username uniqueness, a schema constraint, is not modelled.
- ResetAdmin.Reset: the failure paths of the three deletes and of the create, each answering 500 with the error's message, are not modelled. The reset is modelled as always succeeding.
- ManageAdmins.ListAdmins: `findMany` has no `orderBy`, so the store may return the admins in any order. The model lists them in table order, an order the source leaves open.
- Questions.ListQuestions: without an `orderBy` the order of the listed questions is the store's. The model fixes it as table order. Which questions are listed, their links, and the 500 for a filter value outside its enumeration follow the source.
- QuestionBanks.ListBanks: without an `orderBy` the order of the listed banks is the store's. The model fixes it as table order.
- QuestionBanks.CreatedBankIsListed: that the new bank comes last holds only for the model's table order. The membership clauses, which say the new bank and every earlier one are listed, do not depend on the order.
