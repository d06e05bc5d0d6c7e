# SkillNest in Dafny

SkillNest is a community catalogue of learning resources. Skills are
grouped into categories, and members post resources under a skill,
suggest new skills, and like, bookmark and comment on resources. Nearly
all of the application is glue over a hosted database and auth service.
This project models the pieces that hold their own logic:

- the slug derived for a suggested skill, and the `createPost` decision
  between suggesting a pending skill and using the chosen one;
- the create-post form's mode switch, which fields it requires, and the
  `isNewSkill` flag it adds;
- the skill list filters (catalogue page, mock page, home search with its
  five-item cap, the server-side category post-filter) and the skill
  page's counters and type tabs;
- the like, bookmark and comment actions, with the tables as state;
- the three-step "share a resource" wizard;
- the admin role toggle and the display fallbacks of a user row;
- the sign-up and sign-in forms' checks and the form data they send.

Database results, the signed-in user and the outcome of each write are
inputs. Navigation is a returned target. Timer callbacks are separate
steps.

One module per source file, plus shared modules:

- `Common`: nullable values, replies, toasts, and JavaScript `||` on strings.
- `Text`: ASCII lower-casing, `includes`, and `trim`.
- `Sequences`: an order-keeping filter, the sub-list relation, and `slice`.
- `FormDataModel`: the browser's `FormData`.

Stateful components are classes whose methods change their fields:

| class | file |
|---|---|
| `PostForm` | create_post_form.dfy |
| `SearchBox` | home_search.dfy |
| `Engagement` | resource_actions.dfy |
| `Wizard` | submit_wizard.dfy |
| `LoginForm` | login.dfy |
| `SignUpForm` | sign_up.dfy |
| `FormData` | form_data.dfy |

## Model

| member | source | states |
|---|---|---|
| PostActions.Slug | src/app/dashboard/posts/actions.ts:30-33 | every slug character is a lower-case ASCII letter, a digit, `_` or `-`; the slug is no longer than the name |
| PostActions.SlugOfChar | src/app/dashboard/posts/actions.ts:31-33 | a space gives one `-`; a kept character gives itself lower-cased; any other character gives nothing |
| PostActions.SlugIsCharacterwise | src/app/dashboard/posts/actions.ts:30-33 | the chained expression equals the character-by-character reading, so spaces become one `-` each, letters, digits, `_` and `-` survive lower-cased, and all else is deleted |
| PostActions.SlugAppend | src/app/dashboard/posts/actions.ts:30-33 | the slug of a concatenation is the concatenation of the slugs, so the slug keeps the name's order |
| PostActions.SlugFixesSlugs | src/app/dashboard/posts/actions.ts:30-33 | a string made only of slug characters is its own slug |
| PostActions.SlugIdempotent | src/app/dashboard/posts/actions.ts:30-33 | deriving a slug from a slug changes nothing |
| PostActions.ReplyOf | src/app/dashboard/posts/actions.ts:46-68 | an error result reaches the client as `{ error }` with the same message; a redirect, and only a redirect, reaches it as no reply |
| PostActions.SuggestedSkillRow | src/app/dashboard/posts/actions.ts:28-42 | the suggested skill is inserted under its name and category, with the derived slug and status "pending" |
| PostActions.ResourceRowFor | src/app/dashboard/posts/actions.ts:53-61 | the resource is inserted by the user, under the given skill, with the form's title, url, type and description and status "published" |
| PostActions.Outcome | src/app/dashboard/posts/actions.ts:13-68 | no user: redirect to /login, nothing written; failed skill insert: "Failed to suggest skill: " + message, nothing written; a successful suggestion writes its pending skill row first, which stays if the resource insert then fails; without a suggestion no skill row is written; past the skill step exactly one published resource row is written when its insert succeeds, under the new skill's id or else the form's `skillId`, and the result is the redirect to /dashboard/posts, otherwise the insert's error |
| PostActions.CreatePost | src/app/dashboard/posts/actions.ts:7-68 | the reply and the rows written, step by step as the action reads and inserts, are exactly `Outcome` of the submitted entries |
| FormDataModel.Lookup | src/app/dashboard/posts/actions.ts:17-26 | `get` gives `null` exactly when no entry has the name, and otherwise the value of the first entry with that name |
| FormDataModel.LookupAppend | src/app/dashboard/posts/new/create-post-form.tsx:46-48 | appending an entry leaves what `get` finds for present names unchanged and makes a new name findable |
| FormDataModel.FormData.Append | src/app/dashboard/posts/new/create-post-form.tsx:47 | `append` adds one entry at the end and changes nothing else |
| CreatePostForm.PostForm.constructor | src/app/dashboard/posts/new/create-post-form.tsx:41 | the form starts in "existing skill" mode |
| CreatePostForm.PostForm.ToggleSkillMode | src/app/dashboard/posts/new/create-post-form.tsx:114 | the button flips the mode, so two presses restore it |
| CreatePostForm.RequiredFields | src/app/dashboard/posts/new/create-post-form.tsx:66-151 | title, URL and type are always required; `skillId` exactly when not suggesting; `newSkillName` exactly when suggesting, and `categoryId` exactly when suggesting; no other field is required |
| CreatePostForm.Feedback | src/app/dashboard/posts/new/create-post-form.tsx:50-55 | an error toast with the message exactly for a truthy `error`, otherwise "Post created successfully!" |
| CreatePostForm.FlagSentIffSuggesting | src/app/dashboard/posts/new/create-post-form.tsx:46-48 | the action reads `isNewSkill === "true"` if and only if the form is in suggestion mode |
| CreatePostForm.SubmittedKeepsFields | src/app/dashboard/posts/new/create-post-form.tsx:46-48 | the added flag changes what the action reads for no other field |
| CreatePostForm.SuggestingFormSuggests | src/app/dashboard/posts/new/create-post-form.tsx:46-48 | a suggestion with its required fields filled makes the action suggest the skill |
| CreatePostForm.ExistingSkillFormDoesNotSuggest | src/app/dashboard/posts/new/create-post-form.tsx:46-48 | in "existing skill" mode the action never suggests a skill |
| CreatePostForm.PostForm.HandleSubmit | src/app/dashboard/posts/new/create-post-form.tsx:44-57 | the flag is appended in place exactly in suggestion mode; the reply and writes are `Outcome` of the submitted entries, and the toast is the feedback for that reply; the action suggests a skill never in existing-skill mode and always in suggestion mode once its required fields are filled |
| Sequences.Filter | src/app/skills/skill-detail-client.tsx:44-46 | `filter` keeps an order-keeping sub-list holding exactly the elements that pass |
| Sequences.FilterCounts | src/app/skills/skill-detail-client.tsx:44-46 | every element that passes occurs in the result as often as in the input, and no other element occurs, so identical rows are not merged |
| Text.Lower | src/app/skills/skills-browse.tsx:37-38 | lower-casing keeps the length and lower-cases each character |
| Text.LowerIdempotent | src/app/skills/skills-browse.tsx:37-38 | lower-casing twice is lower-casing once |
| Text.ContainsIff | src/app/skills/skills-browse.tsx:38 | `includes` holds exactly when the query occurs at some position |
| Text.MatchesEmptyQuery | src/app/skills/skills-browse.tsx:36-38 | every name matches the empty search |
| Text.MatchesIgnoresCase | src/app/skills/skills-browse.tsx:36-38 | changing the case of the name or of the query does not change the match |
| Text.MatchesNarrower | src/app/skills/page.tsx:147-149 | a name matching a query also matches every substring of that query |
| Text.TrimEmptyIff | src/components/home/HomeSearch.tsx:42-73 | `trim()` is empty exactly when every character is whitespace |
| SkillsBrowse.FilteredSkills | src/app/skills/skills-browse.tsx:35-42 | an order-keeping sub-list holding exactly the skills that match the search and the tab; under a tab other than "All", every skill has that category |
| SkillsBrowse.InitialStateShowsAll | src/app/skills/skills-browse.tsx:32-42 | empty search and "All" list every skill, in order |
| SkillsBrowse.UncategorisedOnlyUnderAll | src/app/skills/skills-browse.tsx:39-40 | a skill with a null category is listed only under "All" |
| SkillsBrowse.CategoryNames | src/app/skills/skills-browse.tsx:44 | "All" followed by the category names in order, one longer than the categories |
| SkillsBrowse.CardCategory | src/app/skills/skills-browse.tsx:90 | the category name, or "Other" when it is missing or empty |
| SkillsPage.FilteredSkills | src/app/skills/page.tsx:146-153 | an order-keeping sub-list holding exactly the skills that match the search and the tab |
| SkillsPage.NarrowerQueryNarrowsList | src/app/skills/page.tsx:147-151 | when the new query contains the old one, the new list is a sub-list of the old, under the same tab |
| SkillsPage.FilterAgainChangesNothing | src/app/skills/page.tsx:146-153 | filtering the list again with the same search and tab returns it unchanged |
| SkillsPage.InitialStateShowsAll | src/app/skills/page.tsx:34-153 | empty search and "All" list all fifteen mock skills |
| SkillsPage.MockCategoriesAreTabs | src/app/skills/page.tsx:25-140 | every mock skill's category is one of the tabs after "All" |
| SkillsPage.MockSlugsDistinct | src/app/skills/page.tsx:34-140 | the mock slugs, which key the cards, are pairwise distinct |
| HomeSearch.Matches | src/components/home/HomeSearch.tsx:39 | an order-keeping sub-list of exactly the skills whose name contains the query, ignoring case |
| HomeSearch.Suggestions | src/components/home/HomeSearch.tsx:38-40 | at most five suggestions; exactly the first min(5, n) of the n matches, in input order, each matching the query |
| HomeSearch.SuggestionLabel | src/components/home/HomeSearch.tsx:94 | the category name, or "Skill" when it is missing or empty |
| HomeSearch.SearchBox.constructor | src/components/home/HomeSearch.tsx:20-21 | the search box starts with an empty query and suggestions off |
| HomeSearch.SearchBox.OnChange | src/components/home/HomeSearch.tsx:58-73 | typing stores the value and turns suggestions on; the dropdown then shows exactly when the value has a non-whitespace character |
| HomeSearch.SearchBox.OnFocus | src/components/home/HomeSearch.tsx:62 | focusing turns suggestions on and keeps the query |
| HomeSearch.SearchBox.Dismiss | src/components/home/HomeSearch.tsx:31 | a press outside the box turns suggestions off and keeps the query |
| HomeSearch.SearchBox.HandleSearch | src/components/home/HomeSearch.tsx:42-47 | navigates to the results for the query exactly when the query has a non-whitespace character; otherwise nothing happens |
| HomeSearch.SearchBox.ChooseSuggestion | src/components/home/HomeSearch.tsx:80-83 | targets the skill's own page and closes the dropdown |
| SkillDetail.AuthorKeys | src/app/skills/skill-detail-client.tsx:40 | the `Set` of author keys holds exactly the keys of the resources; it has at most as many members as there are resources, and at least one when there are any |
| SkillDetail.ResourceStats | src/app/skills/skill-detail-client.tsx:38-42 | the resource count is the list length; contributors are the number of distinct author keys, so at most the resource count, at least 1 for a non-empty list and 0 for an empty one; the rating is 0 |
| SkillDetail.OneSubmitterOneContributor | src/app/skills/skill-detail-client.tsx:40 | resources that all share one author key count one contributor |
| SkillDetail.FilteredResources | src/app/skills/skill-detail-client.tsx:44-46 | "all" gives the list unchanged; any other tab gives an order-keeping sub-list holding exactly the resources of that type |
| SkillDetail.AuthorLabel | src/app/skills/skill-detail-client.tsx:138 | the author's name, or "Community Member" when it is missing or empty; never empty |
| SkillDetail.CardDescription | src/app/skills/skill-detail-client.tsx:134 | a null description becomes "" |
| SkillDetail.CardUrl | src/app/skills/skill-detail-client.tsx:137 | a null url becomes "" |
| SkillDetail.HeaderBadge | src/app/skills/skill-detail-client.tsx:58 | the category name, or "Skill" when it is missing or empty |
| SkillDetail.HeaderBlurb | src/app/skills/skill-detail-client.tsx:64 | the description when it is non-empty, or else "Learning resources for <name>." |
| SkillQueries.GetSkills | src/app/skills/actions.ts:19-47 | a query error gives []; "All" (the default) gives the rows unchanged; otherwise an order-keeping sub-list of exactly the rows with that category name, null categories dropped |
| SkillQueries.GetSkillsIdempotent | src/app/skills/actions.ts:45-47 | post-filtering the result again by the same category changes nothing |
| SkillQueries.GetCategories | src/app/skills/actions.ts:12-16 | a query error gives [], otherwise the rows |
| SkillQueries.GetSkillBySlug | src/app/skills/actions.ts:65-69 | null exactly on a query error, otherwise the row |
| SkillQueries.GetResourcesBySkillId | src/app/skills/actions.ts:88-92 | a query error gives [], otherwise the rows |
| ResourceActions.Toggled | src/app/resource/actions.ts:17-37 | a pair with exactly one row loses it; otherwise the pair gains a row; other pairs are untouched |
| ResourceActions.ToggleTwiceRestores | src/app/resource/actions.ts:17-37 | toggling the same pair twice restores a table with at most one row for the pair |
| ResourceActions.ToggleKeepsAtMostOne | src/app/resource/actions.ts:17-37 | at most one row per pair before a toggle gives at most one after it, and the pair's presence flips |
| ResourceActions.DuplicatesOnlyGrow | src/app/resource/actions.ts:17-37 | with two or more rows for a pair, a toggle inserts one more row |
| ResourceActions.Engagement.ToggleLike | src/app/resource/actions.ts:6-41 | no user: "Please sign in to like resources.", nothing changes; a write error: that message, nothing changes; otherwise success and the likes table toggled; bookmarks and comments never change |
| ResourceActions.Engagement.ToggleBookmark | src/app/resource/actions.ts:43-78 | the same on the bookmarks table, with "Please sign in to save resources." |
| ResourceActions.Engagement.AddComment | src/app/resource/actions.ts:80-98 | no user or an insert error: that error, nothing changes; otherwise exactly one comment with the resource, user and content is appended |
| SubmitWizard.Pressable | src/app/submit/page.tsx:98-267 | fetch only on step 1 and not loading; Back on steps 2 and 3; Next on step 2; Submit on step 3 and not loading |
| SubmitWizard.ProgressMatchesStep | src/app/submit/page.tsx:75-94 | on step k circle s is highlighted exactly when s <= k and checked exactly when s < k, so k circles are highlighted and k-1 checked |
| SubmitWizard.Wizard.constructor | src/app/submit/page.tsx:27-39 | step 1, not loading, empty URL, metadata "Article" / "Beginner" / "React" with empty title and description |
| SubmitWizard.Wizard.NextStep | src/app/submit/page.tsx:41 | the step goes up by one; nothing else changes |
| SubmitWizard.Wizard.PrevStep | src/app/submit/page.tsx:42 | the step goes down by one; nothing else changes |
| SubmitWizard.Wizard.EditUrl | src/app/submit/page.tsx:118 | the URL input stores its value |
| SubmitWizard.Wizard.EditMetadata | src/app/submit/page.tsx:150-195 | each step-2 input replaces its own field of the metadata and keeps the others; none changes the skill, which `Valid` keeps at "React" |
| SubmitWizard.Wizard.HandleFetchMetadata | src/app/submit/page.tsx:44-51 | an empty URL gives "Please enter a valid URL" and changes neither step nor loading; otherwise loading starts and the extraction timer is set |
| SubmitWizard.Wizard.MetadataExtracted | src/app/submit/page.tsx:51-61 | only title and description are overwritten; type, level and skill are kept; loading ends; the wizard moves to step 2 |
| SubmitWizard.Wizard.HandleSubmit | src/app/submit/page.tsx:64-66 | loading starts and the submission timer is set |
| SubmitWizard.Wizard.Submitted | src/app/submit/page.tsx:66-69 | "Resource submitted for review!" and navigation to /skills |
| SubmitWizard.Wizard.Press | src/app/submit/page.tsx:98-267 | any press of an offered button keeps the step in 1..3; Back lowers and Next raises it by one |
| AdminUsers.ToggledRole | src/app/admin/users/page.tsx:117 | "admin" becomes "user" and every other role becomes "admin"; the result is always "user" or "admin" |
| AdminUsers.ToggleRoleTwice | src/app/admin/users/page.tsx:117 | toggling twice restores the role exactly when it is "user" or "admin" |
| AdminUsers.RoleToggleRequest | src/app/admin/users/page.tsx:113-119 | the button asks for the row's own id with the toggled role |
| AdminUsers.RoleBadge | src/app/admin/users/page.tsx:93-106 | the default variant and the shield icon exactly for "admin"; the badge text is the role |
| AdminUsers.DisplayName | src/app/admin/users/page.tsx:83 | the full name, or "Anonymous User" when it is missing or empty |
| AdminUsers.Handle | src/app/admin/users/page.tsx:86 | the username, or "@" followed by the first min(8, length) characters of the id, at most nine characters |
| SignUp.ProfessionsDistinct | src/components/auth/SignUp.tsx:36-50 | thirteen pairwise distinct professions |
| SignUp.SkillLevelsAreThree | src/components/auth/SignUp.tsx:53 | the levels are exactly Beginner, Intermediate and Senior |
| SignUp.SignUpReadsFields | src/components/auth/SignUp.tsx:64-69 | each of the five names `signup` reads gives back the value the form put under it |
| SignUp.SignUpForm.constructor | src/components/auth/SignUp.tsx:18-24 | all five fields start empty, the form view is shown and the password is hidden |
| SignUp.SignUpForm.Complete | src/components/auth/SignUp.tsx:58 | the guard passes exactly when every one of the five inputs holds a non-empty value |
| SignUp.SignUpForm.View | src/components/auth/SignUp.tsx:82-105 | the inbox confirmation, addressed to the typed email, exactly when sign-up succeeded |
| SignUp.SignUpForm.HandleSubmit | src/components/auth/SignUp.tsx:55-80 | any empty field: "Please fill in all fields." and nothing sent; otherwise exactly email, password, fullName, profession and skillLevel are sent; a truthy error gives its toast and keeps the form; success switches to the inbox view with "Account created! Please check your email." |
| SignUp.SignUpForm.Edit | src/components/auth/SignUp.tsx:175-245 | each input stores its value in its own field and changes nothing else |
| SignUp.SignUpForm.ToggleShowPassword | src/components/auth/SignUp.tsx:213 | the eye button flips password visibility |
| Common.PasswordInputType | src/components/auth/Login.tsx:83 | the input type is "text" exactly when the password is shown, "password" otherwise |
| Login.LoginFeedback | src/components/auth/Login.tsx:43-47 | an error toast with the message exactly for a truthy `error`, otherwise "Welcome back!" |
| Login.LoginReadsCredentials | src/components/auth/Login.tsx:37-39 | the sent entries give back the email and password, and hold no `remember` entry |
| Login.LoginForm.constructor | src/components/auth/Login.tsx:15-18 | email and password start empty, "Remember me" unchecked and the password hidden |
| Login.LoginForm.EditEmail | src/components/auth/Login.tsx:71 | the email input stores its value and changes nothing else |
| Login.LoginForm.EditPassword | src/components/auth/Login.tsx:86 | the password input stores its value and changes nothing else |
| Login.LoginForm.ToggleShowPassword | src/components/auth/Login.tsx:92 | visibility flips, and with it the input type |
| Login.LoginForm.SetRemember | src/components/auth/Login.tsx:103-109 | the checkbox stores its state and changes nothing else |
| Login.LoginForm.HandleSubmit | src/components/auth/Login.tsx:29-49 | an empty email or password: "Please provide both email and password." and nothing sent; otherwise exactly email then password are sent, never `remember`, and the toast is the feedback for the reply |

## Left out

- Database access is not modelled: queries, ordering, and the PostgREST filters `eq("status", ...)` and `eq("categories.name", ...)`. Each query's outcome is an input. The embedded filter in `getSkills` (src/app/skills/actions.ts:33-35) is therefore not modelled; only the post-filter on the returned rows is.
- `.single()` on likes and bookmarks is modelled as "a row exactly when one matches". A failed lookup read (other than "no row") is also treated as "no row", which is what the code does with the error it ignores.
- Auth is an input: the signed-in user's id. So are the results of `login` and `signup` (src/app/auth/actions.ts). OAuth sign-in and sign-out are not modelled.
- `revalidatePath`, `redirect` and `router.push` are side effects; only the target path is returned.
- `useTransition` and its pending flag are not modelled: each handler is one atomic step, and disabling buttons while pending is not modelled.
- The wizard's `setTimeout` delays are not modelled. Each callback is a separate method that runs when its timer fires.
- The click-outside listener of the home search (src/components/home/HomeSearch.tsx:25-36) is not modelled; `Dismiss` stands for its effect.
- `encodeURIComponent` in the search URL is abstract: the route carries the raw query.
- `Text.Lower` models `toLowerCase` on ASCII letters only. Non-ASCII characters are left unchanged, so the search match for non-ASCII names is not the browser's.
- `PostActions.Slug` is ASCII-only in the same way. This agrees with JavaScript for `\w`, which is ASCII, but not for lower-casing non-ASCII capitals.
- `createPost`'s own `getCategories`/`getSkills` helpers (src/app/dashboard/posts/actions.ts:71-85) are not modelled. Neither is `getResource` with its like, bookmark and comment counts (src/app/skills/actions.ts:95-139). Both are plain queries.
- Date and number formatting and all markup are not modelled.
- `CreatePostForm.PostForm.HandleSubmit` assumes the form holds no field named `isNewSkill`, which is true of the rendered form.
