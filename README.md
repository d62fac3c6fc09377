# Ayurvedic wellness app: a Dafny model of its core

This project models the decision logic of a web application for Ayurvedic
diet and wellness care. Patients take a Prakriti (body-constitution)
questionnaire, receive the dominant dosha (vata, pitta or kapha) with
recommendations and a base diet plan, book consultations with a
dietitian, tick off meals and log progress entries. Dietitians manage
patients, appointments and generated diet plans.

The model follows the program's structure:

- `scoring.dfy` (module `Scoring`) is the server's classifier from the
  `prakriti/assess` handler. It holds the per-dosha tally loop (an answer's
  score counts 1 when it is 0 or missing), the rounded percentages
  (`Math.round` as exact rational rounding, `0/0` as NaN) and the `reduce`
  that picks the dominant dosha, where a tie goes to the later entry.
- `knowledge.dfy` (module `Knowledge`) holds the server's two tables, the
  recommendation bundle and the base diet plan. Each is looked up by dosha
  name, and any name the table does not list gets the vata entry.
- `store.dfy` (module `Store`) is the server's request handlers over its
  key-value store. The store is a `map` held by the class `Server`. Each
  table is a key prefix, and an invariant says what each table holds. The
  handlers are profile read and merge, storing an assessment and a plan,
  reading them back, and booking and listing appointments and progress
  entries (the per-user id lists with appends and read-back that skips
  missing ids).
- `questionnaire.dfy` (module `Questionnaire`) is the client
  questionnaire. It has the ten-question catalog and the class
  `AssessmentSession` with its cursor and response array under the
  Next-enabled guard. It also has the progress bar, and what the server
  computes from the body the client submits.
- `meal_tracker.dfy` (module `MealTracker`) is the weekly diet-plan page:
  the sample plan, the meal fallback texts, the completed-meal list under
  its disabled-button guard, the completion percentage, and the day-name,
  colour and lifestyle-description lookups.
- `progress.dfy` (module `Progress`) is the progress page: the add-entry
  validation and defaults, the trend of the two newest entries, the chart
  rows, and the sorts the page performs on its state array.
- `booking.dfy` (module `Booking`) is the four-step booking wizard as a
  class whose step counter advances under the source's guards, plus the
  dietitian and type lookups and the calendar rule.
- `dietitian.dfy` (module `Dietitian`) is the dietitian dashboard: the
  random diet plan with its draws as parameters, the greeting, the three
  forms that reset after a successful submit, and the avatar initials
  (`split(' ')`, first characters, `join('')`).
- `patient.dfy` (module `Patient`) is the patient dashboard: the next
  upcoming appointment, the greeting, the dosha bars and the first three
  recommendations.
- `register.dfy` (module `Register`) is the registration form: field
  updates, and the validation order before the sign-up call.
- `common.dfy` (module `Common`) holds shared helpers. These are `Option`
  and `Result`; decimal rendering and parsing; a stable insertion sort,
  which models JavaScript's stable `Array.prototype.sort` with numeric
  comparators; `find`; and the time-of-day salutation.

Clocks, random draws, generated ids, the authenticated user's id and the
success or failure of network calls are parameters of the operations.

The client and the server disagree in several places. The model keeps
each side as written and states what follows:

- The client submits `{questionId, selected, score}` per answer, while the
  server reads `answer.dosha`. Every submitted questionnaire therefore
  gets a zero total, NaN percentages and the dominant dosha kapha
  (`Questionnaire.SubmittedAssessmentIsKapha`).
- The server returns and stores `dominant_dosha`, `dosha_percentages` and a
  `recommendations` object. The clients read `dominant`, `scores` and a
  `recommendations` array, so the patient dashboard's bars read a missing
  score, which draws as 0 (`Patient.DoshaBar`).
- The progress handler stores a `date` and the server sorts by it, while
  the progress page sorts by `timestamp`.
- The generated plan is stored under `plan`, while the diet-plan page
  reads `weeklyPlan`, so the page shows its fallback texts
  (`MealTracker.MealText`).
- The dashboard posts to `/patients` and `/diet-plans`, which the server
  does not define. An appointment the dietitian schedules is stored with
  the dietitian as `patient_id`, because the server sets `patient_id` to
  the caller.

## Model

| member | source | states |
|---|---|---|
| Scoring.Weight | index.tsx:246-248 | an answer's weight is its score when positive and 1 when the score is 0 or missing, so it is at least 1 |
| Scoring.Tally | index.tsx:243-249 | the forEach loop over the answers ends with, per dosha, the sum of the weights of exactly the answers naming that dosha |
| Scoring.OneAnswerTotal | index.tsx:246-248 | one answer adds its weight to the grand total if it names one of the three doshas, and nothing otherwise |
| Scoring.TotalIsNamedWeight | index.tsx:243-251 | the grand total is the summed weight of the answers whose `dosha` is vata, pitta or kapha; any other value contributes nothing |
| Scoring.NamedWeightPositive | index.tsx:246-251 | the named weight is at least 1 exactly when some answer names a dosha |
| Scoring.TotalPositiveIffNamed | index.tsx:246-251 | the division by the total is defined exactly when at least one answer names vata, pitta or kapha |
| Scoring.RoundedShare | index.tsx:252-256 | a rounded percentage is NaN exactly when the total is 0; otherwise it is the nearest integer to 100*s/total, with halves rounding up, and lies in 0..100 |
| Scoring.RoundBounds | index.tsx:252-256 | `(200s + t) div 2t` brackets 100*s/t to the nearest integer and lies in 0..100 |
| Scoring.Percentages | index.tsx:252-258 | the entries are in the order vata, pitta, kapha, as `Object.entries` lists them |
| Scoring.RoundedSharesSum | index.tsx:251-256 | three shares of one total, each rounded to the nearest percent, add up to 99, 100 or 101 |
| Scoring.PercentagesBounds | index.tsx:251-256 | with a positive total each percentage is a number in 0..100 and the three sum to 99, 100 or 101 |
| Scoring.ReduceIndex | index.tsx:258 | the fold returns one of the entries |
| Scoring.ReduceIsLastMaximum | index.tsx:258 | over numeric entries the fold returns the last position that holds the maximum, because it keeps the accumulator only on strict `>` |
| Scoring.ReduceAllNaN | index.tsx:258 | when every value is NaN no comparison holds and the fold returns the last entry |
| Scoring.DominantTieBreak | index.tsx:258 | the dominant dosha is kapha exactly when kapha's percentage is at least both others, pitta exactly when pitta's is above kapha's and at least vata's, and vata exactly when vata's is above both |
| Scoring.DominantIsMaximal | index.tsx:258 | the dominant dosha's percentage is at least each other percentage |
| Scoring.UnnamedAnswersGiveKapha | index.tsx:243-258 | when no answer names a dosha the total is 0, all percentages are NaN and the dominant dosha is kapha |
| Scoring.ZeroTotalGivesKapha | index.tsx:251-258 | a zero total makes every percentage NaN and the dominant dosha kapha |
| Scoring.AssessmentFrom | index.tsx:258-266 | the stored result names one of the three doshas, with that dosha's recommendation bundle and the computed percentages |
| Scoring.AssessmentOf | index.tsx:240-266 | the result for the submitted answers carries the dominant dosha and percentages of their tally and that dosha's recommendations |
| Knowledge.Resolve | index.tsx:494 | a lookup lands on the dosha of that exact name, and on vata for every other string |
| Knowledge.ResolveName | index.tsx:472-494 | looking up a dosha by its own name finds that dosha |
| Knowledge.RecommendationsFor | index.tsx:472-495 | the bundle is the table entry of the resolved dosha; it has four diet and four lifestyle lines, five foods to include and four to avoid, and no food is both included and avoided |
| Knowledge.BundleShape | index.tsx:473-493 | every bundle in the table has the sizes above and no food both to include and to avoid |
| Knowledge.UnknownNameGetsVata | index.tsx:494 | any name other than vata, pitta and kapha gets exactly vata's recommendations and vata's diet plan; the diet-plan table falls back the same way at line 520 |
| Knowledge.DietPlanFor | index.tsx:497-521 | the plan is the resolved dosha's base plan, with three items per meal |
| Knowledge.PlanShape | index.tsx:499-518 | every base plan lists three items for each of breakfast, lunch, dinner and snacks |
| Knowledge.GenerateDietPlan | index.tsx:497-521 | generateDietPlan returns the base plan for the dosha name |
| Knowledge.GenerateIgnoresRequest | index.tsx:497-521 | the plan does not depend on the preferences, goals or restrictions passed in |
| Store.TablesDisjoint | index.tsx:359-364 | no table's key prefix starts another's, so every key belongs to at most one table; the prefixes are those of the keys used at lines 134, 268, 315, 359, 362, 415 and 418 (writes and reads alike) |
| Store.KeyTable | index.tsx:359-364 | a key built for one table carries that table's prefix and no other |
| Store.WriteKeepsWellFormed | index.tsx:359-364 | writing a value of the right kind under a table's key keeps every table holding its own kind of value; the writes are those at lines 224, 268, 315, 359, 364, 415 and 420 |
| Store.KeysOfTwoTables | index.tsx:359-364 | keys of two different tables never coincide, so the record write and the list write do not clash; the same holds for the progress writes at lines 415-420 |
| Store.ResolveIdsSpec | index.tsx:384-388 | resolution yields at most one result per id, each the record of one of the ids, and one result per id in list order when every id resolves; the progress read-back at lines 440-444 is the same loop |
| Store.ResolveIdsAppend | index.tsx:384-388 | resolving a concatenated id list is resolving each part and concatenating the results |
| Store.ResolveIdsKeepsRecords | index.tsx:384-388 | an id that names a record contributes exactly that record, at its position between what the ids before and after it resolve to |
| Store.ResolveIdsSkipsMissing | index.tsx:384-388 | an id that names no record contributes nothing; the ids before and after it resolve as they would alone |
| Store.ResolveIdsInTable | index.tsx:384-388 | every resolved entry is a value of the table it was read from |
| Store.MergeProfile | index.tsx:215-222 | the merged profile has the existing keys, the update's keys, `id` and `updated_at`; update fields override existing ones; `id` is the caller and `updated_at` is now |
| Store.AppointmentRecord | index.tsx:351-358 | the record has the client's fields plus `id`, `patient_id`, `status` and `created_at`; the client may override `id` and `patient_id` but `status` is always 'scheduled' |
| Store.ProgressRecord | index.tsx:408-413 | the record has the client's fields plus `id`, `user_id` and `date`; `date` is always now |
| Store.NewestFirstSpec | index.tsx:446 | the date sort is a permutation ordered from newest to oldest |
| Store.Server.GetProfile | index.tsx:191-199 | the result is the stored profile record, or `{id: caller, role: 'patient'}` when none is stored |
| Store.Server.GetPrakriti | index.tsx:277-286 | the result is present exactly when an assessment is stored for the user, and is that assessment |
| Store.Server.GetDietPlan | index.tsx:324-333 | the result is present exactly when a plan is stored for the user, and is that plan record |
| Store.Server.UpdateProfile | index.tsx:207-226 | the profile stored and returned is the merge of the existing profile (or `{}`) with the update; only the caller's profile key changes |
| Store.Server.AssessPrakriti | index.tsx:233-269 | the stored and returned result is the assessment of the answers; only the caller's prakriti key changes |
| Store.Server.GenerateDietPlan | index.tsx:294-317 | the stored plan record is the base plan for the stored dominant dosha, or 'balanced' when none is stored, with the request values kept; only the caller's plan key changes |
| Store.Server.BookAppointment | index.tsx:341-366 | the record is stored under its id and the id appended to the caller's list; nothing else changes |
| Store.Server.GetAppointments | index.tsx:374-392 | the loop returns the resolution of the user's list: per-id records in list order, ids with no record skipped (with the append, keep and skip laws of the resolution) |
| Store.Server.AddProgress | index.tsx:398-423 | the entry is stored under its id and the id appended to the caller's progress list; nothing else changes |
| Store.Server.GetProgress | index.tsx:430-447 | the resolved entries, sorted newest date first; each is a dated record |
| Store.BookingAppends | index.tsx:351-364 | booking appends exactly one id at the end of the caller's list, stores the record with status 'scheduled', and leaves every other key unchanged |
| Store.GeneratedPlanIsReadBack | index.tsx:294-333 | after a plan is generated, it is what the user's plan read-back finds, the store stays well formed and the stored assessment is untouched |
| Store.NoAssessmentGivesVataPlan | index.tsx:302-304 | with no stored assessment the 'balanced' default yields vata's base plan; through the fallback at line 520 |
| Questionnaire.QuestionAt | PrakritiAssessment.tsx:26-127 | question i has id i+1 and offers one vata, one pitta and one kapha option, each worth 3 |
| Questionnaire.QuestionsUpTo | PrakritiAssessment.tsx:26-127 | the catalog prefix has n questions, in catalog order |
| Questionnaire.CatalogShape | PrakritiAssessment.tsx:26-127 | the catalog has exactly ten questions with ids 1..10, each with three options, one per dosha, each worth 3 |
| Questionnaire.TypeTotalsSplit | PrakritiAssessment.tsx:26-127 | with one option per question, the three dosha totals sum to 3 per question and none exceeds it |
| Questionnaire.CompleteTotals | PrakritiAssessment.tsx:26-127 | with one option for each of the ten questions, each dosha total is at most 30 (the display's `/30` scaling) and the three make 30 |
| Questionnaire.SetAt | PrakritiAssessment.tsx:130-136 | writing index i of a copied array sets that index, grows the array with holes if needed, and keeps every other index |
| Questionnaire.SubmittedAssessmentIsKapha | PrakritiAssessment.tsx:131-135 | the submitted body names no dosha, so the server's total is 0 and the dominant dosha is kapha whatever was chosen; the body is sent at line 165 |
| Questionnaire.ProgressValue | PrakritiAssessment.tsx:185 | the progress value lies in (0, 100] and is 100 exactly on the last question |
| Questionnaire.AssessmentSession.constructor | PrakritiAssessment.tsx:21-26 | the session starts on the first question of the catalog with no responses |
| Questionnaire.AssessmentSession.AnswerSelect | PrakritiAssessment.tsx:129-137 | the response at the cursor becomes `{questionId, selected, score}` (re-selecting overwrites it), every other index is kept, and the cursor stays |
| Questionnaire.AssessmentSession.SelectOption | PrakritiAssessment.tsx:370-377 | picking an option text of the current question records that option; any other text changes nothing |
| Questionnaire.AssessmentSession.PressNext | PrakritiAssessment.tsx:139-145 | a disabled Next does nothing; otherwise the cursor moves on, or on the last question the responses are submitted and the cursor stays; a submission holds ten responses each answering its own question; the guard is the button's `disabled` at line 402 |
| Questionnaire.AssessmentSession.PrevQuestion | PrakritiAssessment.tsx:147-151 | the cursor goes back one question, never before the first; the responses are kept |
| Questionnaire.RecordKeepsInvariant | PrakritiAssessment.tsx:129-137 | recording an option of the current question keeps every recorded response answering its own question and every earlier question answered |
| Questionnaire.MoveKeepsInvariant | PrakritiAssessment.tsx:139-151 | moving back, or forward past an answered question, keeps the cursor in 0..9 and every question before it answered |
| Questionnaire.SubmittedTotals | PrakritiAssessment.tsx:26-127 | a submitted questionnaire's chosen options give dosha totals that make 30 |
| MealTracker.MealText | DietPlan.tsx:310 | a cell shows the plan's entry for the day when it is present and non-empty, and the meal's fallback text otherwise; lunch and dinner do the same at lines 335 and 360 |
| MealTracker.SampleNeedsNoFallback | DietPlan.tsx:81-107 | each sample meal list has seven entries, so days 0..6 of the sample plan never show the fallback |
| MealTracker.SampleEntriesPresent | DietPlan.tsx:81-107 | every entry of the sample week's breakfast, lunch and dinner lists is non-empty |
| MealTracker.MealKeyListed | DietPlan.tsx:296-300 | every meal key of the seven rendered days is one of the 21 keys; lunch and dinner keys at lines 321-325 and 346-350 |
| MealTracker.AtMostTwentyOne | DietPlan.tsx:296-300 | a list without duplicates drawn from the 21 keys has at most 21 entries |
| MealTracker.CompletionPercent | DietPlan.tsx:382 | the figure is length/21*100 rounded to the nearest integer, is at most 100 for at most 21 meals, and is 100 exactly at 21 |
| MealTracker.MealTracker.constructor | DietPlan.tsx:25 | the tracker starts with no completed meals |
| MealTracker.MealTracker.MarkMealComplete | DietPlan.tsx:126-131 | the key is appended at the end and the earlier entries are unchanged |
| MealTracker.MealTracker.Click | DietPlan.tsx:296-300 | a disabled button changes nothing and an enabled one appends its key, so the list keeps no duplicates and only rendered keys; likewise for lunch and dinner at lines 321-325 and 346-350 |
| MealTracker.MealTracker.Completion | DietPlan.tsx:377-382 | under the guard the shown percentage is at most 100 |
| MealTracker.DayName | DietPlan.tsx:133-136 | indices 0..6 give Monday..Sunday, and any other index gives "Day i+1", which is never a weekday name |
| MealTracker.Lower | DietPlan.tsx:148 | lower-casing keeps the length and lower-cases each ASCII letter |
| MealTracker.LowerIdempotent | DietPlan.tsx:148 | lower-casing twice is lower-casing once |
| MealTracker.PrakritiColor | DietPlan.tsx:147-154 | vata, pitta and kapha in any letter case get their colours, and a missing value or any other name gets the gray default |
| MealTracker.ColorIgnoresCase | DietPlan.tsx:147-154 | two names that differ only in letter case get the same colour |
| MealTracker.LifestyleDescription | DietPlan.tsx:577-594 | a listed practice gets its text, and the default text is returned exactly for unlisted practices |
| Progress.LevelDefaults | ProgressTracking.tsx:84-86 | a picked level is sent as itself and a blank one as 5 |
| Progress.BuildBody | ProgressTracking.tsx:65-89 | the form is rejected with the required-fields message exactly when weight or energy level is blank; otherwise the body carries the weight, the parsed energy level, the three levels with blank as 5, and the notes |
| Progress.OnlyRequiredFilled | ProgressTracking.tsx:66-89 | filling only the required fields sends 5 for sleep, stress and digestion |
| Progress.AddEntryForm.constructor | ProgressTracking.tsx:27-35 | the form starts blank and closed |
| Progress.AddEntryForm.ToggleForm | ProgressTracking.tsx:191-194 | the header button flips whether the form is shown and keeps its contents |
| Progress.AddEntryForm.CloseForm | ProgressTracking.tsx:282 | the form's Cancel hides it and keeps its contents |
| Progress.AddEntryForm.OpenForm | ProgressTracking.tsx:303 | the empty-history prompt shows the form and keeps its contents |
| Progress.AddEntryForm.HandleAddProgress | ProgressTracking.tsx:65-112 | a request is sent exactly when the form is valid, and it is the built body; on success the form is cleared and closed, otherwise it is kept |
| Progress.OldestFirst | ProgressTracking.tsx:117 | the ascending timestamp sort is a permutation ordered from oldest to newest; the charts sort the same way at lines 133 and 143 |
| Progress.NewestFirst | ProgressTracking.tsx:156 | the descending timestamp sort is a permutation ordered from newest to oldest |
| Progress.NewestTwoAreNewest | ProgressTracking.tsx:117-119 | the two entries compared are taken from the list, and removing them leaves the rest of it; the latest is the newest entry and the previous is at least as new as every remaining entry |
| Progress.ProgressTrend | ProgressTracking.tsx:114-129 | there is no trend for fewer than two entries or when either of the two newest lacks a truthy value; otherwise change is latest minus previous, positive for weight when it falls and for other metrics when it rises |
| Progress.WellnessRow | ProgressTracking.tsx:141-152 | missing energy, sleep or digestion draw as 0, and stress draws as 10 minus the level, or 5 when the level is missing or 0 |
| Progress.StressRowRange | ProgressTracking.tsx:148 | a stress level from 1..10 draws in 0..9 |
| Progress.ProgressPage.constructor | ProgressTracking.tsx:25 | the page holds the loaded entries |
| Progress.ProgressPage.WeightChartData | ProgressTracking.tsx:131-139 | the state array is sorted oldest first in place and each point is the day label and weight of the entry at its position |
| Progress.ProgressPage.WellnessChartData | ProgressTracking.tsx:141-152 | the state array is sorted oldest first in place and each row is the wellness row of the entry at its position |
| Progress.ProgressPage.LatestEntry | ProgressTracking.tsx:154-157 | nothing for an empty list; otherwise the state array is sorted newest first in place and the result is its head, an entry of the list whose timestamp is at least every other |
| Booking.DietitianInfo | BookAppointment.tsx:148-150 | the lookup finds a listed dietitian with the selected id, and finds nothing exactly when no dietitian has that id |
| Booking.TypeInfo | BookAppointment.tsx:152-154 | the lookup finds a listed type with the selected value, and finds nothing exactly when no type has that value |
| Booking.RequestFields | BookAppointment.tsx:112-119 | the body has exactly the fields date, time, type, dietitianId, notes and status, holding the selected date's timestamp, time, type, dietitian, the notes text and the request's status ('pending' from the wizard) |
| Booking.PendingIsStoredAsScheduled | BookAppointment.tsx:112-119 | the client asks for status 'pending' and the server stores 'scheduled', with the caller as patient |
| Booking.BookingWizard.constructor | BookAppointment.tsx:25-31 | the wizard starts on step 1 with nothing selected |
| Booking.BookingWizard.ChooseDietitian | BookAppointment.tsx:236-256 | on step 1 a dietitian card selects that dietitian; nothing else changes |
| Booking.BookingWizard.ContinueToSchedule | BookAppointment.tsx:301-303 | step 1 moves to 2 only when a dietitian is selected |
| Booking.BookingWizard.PickDate | BookAppointment.tsx:323-328 | on step 2 a date is selected unless it is before now or a Sunday |
| Booking.BookingWizard.PickTime | BookAppointment.tsx:343-350 | on step 2, once a date is picked, a listed time slot is selected |
| Booking.BookingWizard.PickType | BookAppointment.tsx:371-377 | on step 2 a listed consultation type is selected |
| Booking.BookingWizard.EditNotes | BookAppointment.tsx:397-400 | on step 2 the notes textarea replaces the notes; elsewhere nothing changes; the step and selections are kept |
| Booking.BookingWizard.BackToDietitian | BookAppointment.tsx:407 | Back moves step 2 to 1 |
| Booking.BookingWizard.ContinueToConfirm | BookAppointment.tsx:410-412 | step 2 moves to 3 only when date, time and type are all set |
| Booking.BookingWizard.BackToSchedule | BookAppointment.tsx:495 | Back moves step 3 to 2 |
| Booking.BookingWizard.BookAppointment | BookAppointment.tsx:103-146 | off step 3, where Confirm is not rendered (line 499), nothing happens; on step 3 a missing date, time, type or dietitian reports the error, sends nothing and keeps the step; otherwise loading is set, the pending request is sent, and the step becomes 4 on success and stays on failure; the notes are kept and loading is off on every exit |
| Booking.BookingWizard.BookAnother | BookAppointment.tsx:193 | "Book another" moves step 4 to 1 |
| Booking.BookingWizard.ConfirmationLookups | BookAppointment.tsx:148-154 | from step 3 on, the chosen dietitian and type are both found by the lookups |
| Booking.BookingWizard.ConfirmStepHasAllFields | BookAppointment.tsx:104-107 | on step 3 the missing-field guard of the booking handler cannot fire; step 3 is reached only through the guard at lines 410-412 |
| Dietitian.GenerateRandomDietPlan | DietitianDashboard.tsx:263-277 | each meal is an element of its own four-item list, calories lie in 1500..1999, and the instructions name the duration, goal and restrictions |
| Dietitian.EveryPlanReachable | DietitianDashboard.tsx:263-277 | every combination of listed meals and every calorie figure in range comes from some draws |
| Dietitian.InstructionsMention | DietitianDashboard.tsx:274 | the instructions open with 'Follow this ', contain the duration and the goal, and end with the restrictions (or 'processed foods' when they are empty) followed by '.' |
| Dietitian.DietitianGreeting | DietitianDashboard.tsx:284-291 | the salutation follows the hour and the name defaults to 'Doctor' |
| Dietitian.DashboardForms.constructor | DietitianDashboard.tsx:62-76 | the three forms start blank and their dialogs closed |
| Dietitian.DashboardForms.SetAddPatientOpen | DietitianDashboard.tsx:737 | the add-patient dialog opens or closes, as its buttons at lines 483, 530, 564 and 796 do; the forms and other dialogs are kept |
| Dietitian.DashboardForms.SetScheduleOpen | DietitianDashboard.tsx:808 | the schedule dialog opens or closes, as its buttons at lines 492, 580 and 880 do; the forms and other dialogs are kept |
| Dietitian.DashboardForms.SetCreatePlanOpen | DietitianDashboard.tsx:892 | the diet-plan dialog opens or closes, as its buttons at lines 501 and 961 do; the forms and other dialogs are kept |
| Dietitian.DashboardForms.EditPatient | DietitianDashboard.tsx:748-783 | in the open add-patient dialog an input replaces the patient form; the other forms and dialogs are kept |
| Dietitian.DashboardForms.EditAppointment | DietitianDashboard.tsx:816-875 | in the open schedule dialog an input replaces the appointment form; the other forms and dialogs are kept |
| Dietitian.DashboardForms.EditPlan | DietitianDashboard.tsx:902-956 | in the open diet-plan dialog an input replaces the plan form; the other forms and dialogs are kept |
| Dietitian.DashboardForms.AddPatient | DietitianDashboard.tsx:171-197 | from the open dialog (button at line 799) the form is sent; on success it is cleared and its dialog closed; otherwise it is kept; the other forms do not change |
| Dietitian.DashboardForms.ScheduleAppointment | DietitianDashboard.tsx:199-228 | from the open dialog (button at line 883) the form is sent with the dietitian's id; on success it is cleared and closed; otherwise it is kept; the other forms do not change |
| Dietitian.DashboardForms.CreateDietPlan | DietitianDashboard.tsx:230-261 | from the open dialog (button at line 964) the form is sent with the generated plan and the dietitian's id; on success it is cleared and closed; otherwise it is kept; the other forms do not change |
| Dietitian.Split | DietitianDashboard.tsx:544 | `split(' ')` gives at least one piece and no piece holds a space |
| Dietitian.JoinSplit | DietitianDashboard.tsx:544 | joining the pieces with single spaces gives the name back |
| Dietitian.LastPieceEmpty | DietitianDashboard.tsx:544 | the last piece is empty exactly when the name is empty or ends in a space |
| Dietitian.InitialsAreWordStarts | DietitianDashboard.tsx:413 | the initials are exactly the characters that start a word, which is the first character and each non-space character after a space; the same expression is used at lines 544 and 593 |
| Dietitian.PatientInitials | DietitianDashboard.tsx:544 | the avatar is never empty; it shows the word starts, or 'P' when the name is missing or has no word |
| Patient.Upcoming | PatientDashboard.tsx:121-122 | the filter keeps exactly the appointments whose date is after now |
| Patient.NextAppointmentSpec | PatientDashboard.tsx:120-125 | the next appointment is an upcoming one no later than any other upcoming one, and there is none exactly when nothing lies in the future |
| Patient.PatientGreeting | PatientDashboard.tsx:111-118 | the salutation follows the hour and the name defaults to 'there' |
| Patient.DoshaBar | PatientDashboard.tsx:238-256 | a bar is 10 times the score, 0 for a missing score, and lies in 0..100 exactly for a score in 0..10 |
| Patient.TopRecommendations | PatientDashboard.tsx:263 | at most the first three recommendations are shown, in order |
| Register.SetField | RegisterForm.tsx:27-29 | the named field takes the value and every other field is unchanged |
| Register.SetFieldTwice | RegisterForm.tsx:27-29 | a later change to the same field wins, and changes to different fields commute |
| Register.Validate | RegisterForm.tsx:31-48 | once the handler runs, sign-up is reached exactly when the passwords match and have at least six characters, with the form's email, password, name and role; a mismatch is reported before the length |
| Register.MismatchReportedFirst | RegisterForm.tsx:35-45 | a short password that also differs from its confirmation is reported as a mismatch |
| Register.RegisterPage.constructor | RegisterForm.tsx:17-24 | the form starts blank with role 'patient', not loading |
| Register.RegisterPage.HandleInputChange | RegisterForm.tsx:27-29 | the form becomes the old form with the one field changed |
| Register.RegisterPage.HandleRegister | RegisterForm.tsx:31-63 | a failed check is reported without calling sign-up; otherwise sign-up is called with the form's values; the form is kept and loading is off on every exit |
| Common.SortAsc | PatientDashboard.tsx:121-124 | the sort returns a permutation ordered by the key |
| Common.SortAscStable | PatientDashboard.tsx:121-124 | the sort is stable: for every key value, the elements with that key appear in the same order as in the input |
| Common.FindBy | BookAppointment.tsx:148-154 | `find` on a field returns a listed element with that field value, and nothing exactly when none has it |
| Common.Salutation | PatientDashboard.tsx:111-118 | morning before 12, afternoon from 12 until 17, evening from 17 |
| Common.ParseNatToString | ProgressTracking.tsx:83-86 | parsing the decimal rendering of a number gives the number back |

## Left out

- Register.RegisterPage.HandleRegister: the browser's own form validation is not modelled. The inputs are `required` (RegisterForm.tsx:98, 110, 135 and 147) and the email input has `type="email"` (line 106), so the browser blocks a submit with a blank name, email, password or confirmation, or with a malformed email, before the handler runs. The model's handler (and `Register.Validate`) is also defined on those submits: a blank form is rejected as too short, and a blank email with a matching six-character password reaches sign-up.
- Dietitian.DashboardForms.EditPatient, EditAppointment and EditPlan: each input's `{...form, <field>: value}` update is modelled as replacing the whole form; the patient select's lookup of the patient's name (DietitianDashboard.tsx:816-822) is not modelled.
- Network, authentication and the SDKs are left out: `fetch`, `verifyAuth`, sign-in, sign-up on the server, demo-user seeding, Hono routing and CORS. The success of a request is a boolean parameter, and the caller's id is a parameter.
- AuthContext, LoginForm, LandingPage and App are not part of this model. They are session storage, sign-in, markup and routing.
- `GET /dietitian/patients` (`kv.getByPrefix`) and the dashboard's stats loading are not modelled; they filter all users by role.
- `localStorage` persistence of the completed meals and the toasts are left out.
- The clock, `Date.now()`, `Math.random()` and ISO date strings are not modelled. Times are integers passed in, generated ids are parameters, and the dietitian's random draws are index parameters.
- The dietitian analytics data is random chart data and is left out.
- Requests are modelled as completing within their handler, so the buttons disabled while a request is in flight are not captured: the questionnaire's Next (`|| loading`, PrakritiAssessment.tsx:402) and the wizard's Confirm (`disabled={loading}`, BookAppointment.tsx:500). The wizard's loading flag is set and cleared by `BookAppointment`; the questionnaire's is not modelled.
- Questionnaire.SubmittedAssessmentIsKapha: covers only complete responses, which is all Next submits; a body with unanswered holes reaches the server as `null` entries, whose `answer.dosha` throws, and that failure is not modelled.
- Scoring.Answer models a score as a natural number. Negative, fractional or string scores (where `+=` would concatenate) are not modelled.
- Scoring.RoundedShare: `Math.round` on floating point is modelled with exact rationals, so float error at exact halves is not captured.
- Progress.BuildBody sends the weight as typed: `parseFloat` is not modelled, and `parseInt` is modelled only on digit strings (what the level selects offer).
- Progress.ProgressTrend: the `percentage` field (`toFixed(1)`) is left out because it is floating-point formatting.
- MealTracker.Lower lower-cases ASCII letters only; Unicode case mapping is not modelled.
- String lengths are counted in characters, not UTF-16 code units.
- An entry without a timestamp would sort by NaN in the source; the model gives every progress entry an integer timestamp.
- Duplicate generated ids (two bookings in the same millisecond) are not modelled; the ids are parameters.
- The calendar's deselect (clicking the selected day again) is not modelled.
- Object keys inherited from JavaScript prototypes (such as looking up "constructor" in a table) are not modelled; only the listed keys resolve.
