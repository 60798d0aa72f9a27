# SuwaSawiya — a verified model of the donation and disbursement bookkeeping

SuwaSawiya is a medical crowdfunding platform. Partners (hospitals, NGOs, PHIs)
open campaigns for patients. Administrators approve, edit, cancel or delete
campaigns and verify partners. Donors give through a card-payment gateway.
A campaign's `funds_raised` goes up once per confirmed payment. Partners ask
for disbursements against it, and administrators approve them.

This project models the Flask backend's route handlers over its SQLAlchemy
tables, the model classes, and the helpers they use. It also models the
dotted-path translation lookup of the two client language contexts.

- **The database** is one mutable `Database.Store`. It has a map per table,
  plus the append-only sequence of `transactions`.
- **Each handler** is a method on the store that answers a `Reply`: the HTTP
  status and the envelope's `success` flag.
- **Rollback.** Every handler either commits all of its changes or, on any
  error, leaves every table unchanged, because the source rolls the session
  back.
- **The invariant.** `Store.Valid` gathers the database's own constraints
  (unique email, unique registration number, unique gateway intent id,
  unique transaction reference, foreign keys). It adds the ledger equation:
  every campaign's `funds_raised` equals the sum of the successful
  transactions of its donations (`Ledger.FundsMatchLedger`). A donation is
  completed exactly when a transaction records it. Every state-changing
  handler keeps `Valid`.
- **Values the source draws itself** are parameters: fresh `uuid4` keys, the
  clock, the password salt, the gateway's answers and the outcome of writing
  an uploaded file. A fresh key that is already in use makes the insert fail
  (500).
- **Amounts.** Python floats are modelled as unbounded integers, e.g. an
  amount in cents. A JSON request value is a `Base.Json`: null, a number, or
  a string together with what `float()` makes of it.

The model follows the code where it departs from a stricter ledger design:

- `confirm_donation` never looks at the donation's status. A second
  confirmation of a completed donation fails only because its transaction
  reference is already taken, which gives 500 and a rollback.
- A payment that did not succeed leaves the donation `pending`. Nothing
  ever marks a donation `failed`.
- `create_donation` accepts a campaign in any status.
- `request_disbursement` checks only `0 < amount ≤ funds_raised`. It ignores
  other pending or approved disbursements and the campaign's status.
- `approve_disbursement` re-checks nothing.
- No handler processes a disbursement, so `funds_raised` never decreases.
- `confirm_fraud` cancels the campaign (`'cancelled'`, not `'suspended'`).
  The campaign's disbursements stay as they were.

Handlers behind `@role_required` first pass through `AuthGuard.RoleRequired`.
That guard already answers 403 for a missing user or a wrong role, so each
handler's own "not found" check of the caller can never fire. The model keeps
the guard's 403 and omits those checks.

## Model

| member | source | states |
|---|---|---|
| Base.Float | SERVER/suwa_sawiya_backend/app/routes/partner.py:263 | `float(v)` of a JSON value: a number is itself, null raises (None). |
| Base.Lower | SERVER/suwa_sawiya_backend/app/utils/file_handler.py:9 | `str.lower` keeps the length and lowers each character. |
| Base.Upper | SERVER/suwa_sawiya_backend/app/routes/donor.py:235 | `str.upper` keeps the length and raises each character. |
| Base.LowerIdempotent | SERVER/suwa_sawiya_backend/app/utils/file_handler.py:9 | Lowering twice is lowering once. |
| Response.SuccessResponse | SERVER/suwa_sawiya_backend/app/utils/response.py:5-12 | Always `success = true`, 200 by default, with the given message. |
| Response.ErrorResponse | SERVER/suwa_sawiya_backend/app/utils/response.py:15-22 | Always `success = false`, 400 by default. |
| Response.TotalPages | SERVER/suwa_sawiya_backend/app/utils/response.py:35 | No contract of its own; `Response.TotalPagesIsCeiling` and `Response.TotalPagesSmall` state that it is the ceiling of total / per_page. |
| Response.FloorDiv | SERVER/suwa_sawiya_backend/app/utils/response.py:35 | Python's `//` rounds toward minus infinity, for either sign of divisor. |
| Response.TotalPagesIsCeiling | SERVER/suwa_sawiya_backend/app/utils/response.py:35 | `total_pages` is ⌈total / per_page⌉: enough pages for every item, and no page more than needed. |
| Response.TotalPagesSmall | SERVER/suwa_sawiya_backend/app/utils/response.py:35 | No items give 0 pages; up to one page of items gives 1 page. |
| Response.PaginatedResponse | SERVER/suwa_sawiya_backend/app/utils/response.py:25-38 | Raises exactly when `per_page` is 0 (division by zero, answered 500 by the caller). Otherwise 200 and `success`, echoing total, page and per-page, with the ceiling as page count. |
| FileHandler.LastDot | SERVER/suwa_sawiya_backend/app/utils/file_handler.py:9 | `rsplit('.', 1)` splits at the last dot, which exists exactly when the name has a dot. |
| FileHandler.AllowedFile | SERVER/suwa_sawiya_backend/app/utils/file_handler.py:7-9 | Only a name with a dot is allowed. The full meaning is `FileHandler.AllowedFileMeaning`. |
| FileHandler.AllowedFileMeaning | SERVER/suwa_sawiya_backend/app/utils/file_handler.py:7-9 | A name is allowed iff it has a dot and the lowered text after the last dot is an allowed extension. |
| FileHandler.LastExtensionDecides | SERVER/suwa_sawiya_backend/app/utils/file_handler.py:9 | For `name.ext`, only `ext` decides, whatever dots `name` holds. |
| FileHandler.LastDotLower | SERVER/suwa_sawiya_backend/app/utils/file_handler.py:9 | Lowering a name does not move its last dot. |
| FileHandler.AllowedFileIgnoresCase | SERVER/suwa_sawiya_backend/app/utils/file_handler.py:9 | The check gives the same answer for a name and its lower-case form. |
| FileHandler.UpperCaseAccepted | SERVER/suwa_sawiya_backend/app/utils/file_handler.py:9 | "SCAN.PDF" passes when "pdf" is allowed. |
| FileHandler.DoubleExtensionRefused | SERVER/suwa_sawiya_backend/app/utils/file_handler.py:9 | "a.pdf.exe" is refused when only documents are allowed. |
| FileHandler.SaveUploadedFile | SERVER/suwa_sawiya_backend/app/utils/file_handler.py:12-35 | Exactly one of (path, error) is set. The errors come in this order: not a file, empty name, type not allowed, then the write's own error. |
| Users.UserType | SERVER/suwa_sawiya_backend/app/models/user.py:19 | The `user_type` tag names exactly the role variant of the row. |
| Users.UserTypeIsARole | SERVER/suwa_sawiya_backend/app/models/user.py:19 | Every user is a donor, a partner or an admin. |
| Users.SetPassword | SERVER/suwa_sawiya_backend/app/models/user.py:33-35 | Changes only the password hash, salted with the drawn salt. |
| Users.GeneratePasswordHash | SERVER/suwa_sawiya_backend/app/models/user.py:33-35 | No contract of its own; `Users.SetThenCheck` states what the hash promises. |
| Users.CheckPassword | SERVER/suwa_sawiya_backend/app/models/user.py:37-39 | No contract of its own; `Users.SetThenCheck` states that it holds exactly for the password last set. |
| Users.SetThenCheck | SERVER/suwa_sawiya_backend/app/models/user.py:33-39 | After `set_password(p)`, `check_password(q)` holds exactly for `q == p`. |
| Users.NewDonor | SERVER/suwa_sawiya_backend/app/models/user.py:20-21 | A new donor is active, unverified, has donated 0, and checks against its password. |
| Users.NewPartner | SERVER/suwa_sawiya_backend/app/models/user.py:70-83 | A new partner is active and unverified, holds the organisation's columns, and checks against its password. |
| Users.ToDict | SERVER/suwa_sawiya_backend/app/models/user.py:41-53 | The view carries the id, email, first and last name, phone, role tag, flags and creation time of the row, and nothing else. |
| Users.ToDictHidesPassword | SERVER/suwa_sawiya_backend/app/models/user.py:41-53 | `to_dict` never depends on the password hash. |
| CampaignModel.NewCampaign | SERVER/suwa_sawiya_backend/app/models/campaign.py:20-21 | A new campaign starts `pending` with `funds_raised = 0` and no deadline. |
| CampaignModel.RemainingAmount | SERVER/suwa_sawiya_backend/app/models/campaign.py:56 | No contract of its own; specified by `CampaignModel.RemainingAmountUncapped`. |
| CampaignModel.ProgressPercentage | SERVER/suwa_sawiya_backend/app/models/campaign.py:74-78 | No contract of its own; specified by `CampaignModel.ProgressGuards` and `CampaignModel.ProgressReachesHundred`. |
| CampaignModel.DictProgress | SERVER/suwa_sawiya_backend/app/models/campaign.py:66 | No contract of its own; specified by `CampaignModel.ProgressGuards`. |
| CampaignModel.RemainingAmountUncapped | SERVER/suwa_sawiya_backend/app/models/campaign.py:56 | `remaining_amount` goes negative exactly when the campaign is overfunded; each credit lowers it by the amount. |
| CampaignModel.ProgressGuards | SERVER/suwa_sawiya_backend/app/models/campaign.py:66-78 | A zero target gives 0 % in both formulas. `to_dict` also gives 0 % for a negative target, where `get_progress_percentage` divides. |
| CampaignModel.ProgressReachesHundred | SERVER/suwa_sawiya_backend/app/models/campaign.py:74-78 | For a positive target, progress reaches 100 % exactly when the target is met. |
| CampaignModel.NewDonation | SERVER/suwa_sawiya_backend/app/routes/donor.py:171-180 | A new donation is `pending`, carries the intent id, and has no donor exactly when anonymous. |
| CampaignModel.DonationToDict | SERVER/suwa_sawiya_backend/app/models/campaign.py:105-117 | `donor_id` is shown only when set and not anonymous; `completed_at` is None until set. |
| CampaignModel.AnonymousDonorHidden | SERVER/suwa_sawiya_backend/app/models/campaign.py:110 | An anonymous donation never reveals a donor. |
| OtherModel.NewDocument | SERVER/suwa_sawiya_backend/app/models/other.py:8-25 | A new document is unverified and keeps its path and name. |
| OtherModel.NewTransaction | SERVER/suwa_sawiya_backend/app/models/other.py:39-55 | A new transaction defaults to `pending`, currency `USD`, and is not yet processed. |
| OtherModel.NewDisbursement | SERVER/suwa_sawiya_backend/app/models/other.py:70-88 | A new disbursement is `pending`, not approved or processed, with the given amount and bank. |
| OtherModel.DisbursementToDict | SERVER/suwa_sawiya_backend/app/models/other.py:90-101 | `approved_at` and `processed_at` are None until set. |
| OtherModel.NewFraudReport | SERVER/suwa_sawiya_backend/app/models/other.py:104-119 | A new report is `pending`, has no notes, and names its campaign. |
| Ledger.CreditedAppend | SERVER/suwa_sawiya_backend/app/routes/donor.py:229-248 | Appending a transaction adds its amount to its own campaign's credited sum and nothing to the others. |
| Ledger.CreditedFrame | SERVER/suwa_sawiya_backend/app/models/other.py:44 | The credited sum depends only on which campaign each transaction's donation belongs to. |
| Ledger.CreditedNothing | SERVER/suwa_sawiya_backend/app/models/other.py:44 | A campaign no transaction pays into is credited 0. |
| Ledger.CreditedNonNegative | SERVER/suwa_sawiya_backend/app/routes/donor.py:157-159 | With positive amounts the credited sum is never negative. |
| Ledger.CreditedHasWitness | SERVER/suwa_sawiya_backend/app/routes/donor.py:241 | A campaign with credited funds has a successful transaction paying into it. |
| Ledger.AtMostOneCreditPerDonation | SERVER/suwa_sawiya_backend/app/models/other.py:47 | Unique references allow at most one transaction per donation, so no donation is credited twice. |
| Ledger.FundsNonNegative | SERVER/suwa_sawiya_backend/app/models/campaign.py:20 | Under the ledger equation `funds_raised` is never negative. |
| Ledger.NewDonationKeepsConsistent | SERVER/suwa_sawiya_backend/app/routes/donor.py:172-183 | Adding a pending donation keeps the ledger equation and the record invariants. |
| Ledger.MarkCompleted | SERVER/suwa_sawiya_backend/app/routes/donor.py:225-226 | The donation becomes `completed` with its completion time; nothing else changes. |
| Ledger.Credit | SERVER/suwa_sawiya_backend/app/routes/donor.py:241 | `funds_raised` rises by exactly the amount; nothing else changes. |
| Ledger.ConfirmKeepsFunds | SERVER/suwa_sawiya_backend/app/routes/donor.py:225-248 | Completing, crediting and recording one donation keeps every campaign's funds equal to its credited sum. |
| Ledger.ConfirmKeepsRecords | SERVER/suwa_sawiya_backend/app/routes/donor.py:225-248 | The same step keeps transactions backed by donations, references unique, and completed iff recorded. |
| Ledger.ConfirmKeepsConsistent | SERVER/suwa_sawiya_backend/app/routes/donor.py:225-248 | A confirmation with a fresh reference keeps the whole ledger invariant. |
| Ledger.NewCampaignKeepsConsistent | SERVER/suwa_sawiya_backend/app/routes/partner.py:63-91 | A new campaign at `funds_raised = 0` keeps the ledger equation. |
| Ledger.SameFundsKeepConsistent | SERVER/suwa_sawiya_backend/app/routes/admin.py:111-114 | A campaign update that keeps `funds_raised` keeps the ledger invariant. |
| Ledger.DonationsExcept | SERVER/suwa_sawiya_backend/app/models/campaign.py:41 | The cascade keeps exactly the donations of other campaigns, unchanged. |
| Ledger.DeleteKeepsConsistent | SERVER/suwa_sawiya_backend/app/routes/admin.py:320-321 | Deleting a campaign that no transaction pays into, with its donations, keeps the ledger invariant. |
| Ledger.ReferenceTakenIffCompleted | SERVER/suwa_sawiya_backend/app/routes/donor.py:229-248 | A donation's intent id is already a transaction reference exactly when the donation is completed. A second confirmation is therefore refused at commit. |
| Database.Ok | SERVER/suwa_sawiya_backend/app/utils/response.py:5-12 | A success reply carries the code. |
| Database.Fail | SERVER/suwa_sawiya_backend/app/utils/response.py:15-22 | An error reply carries the code. |
| Database.UserUpdateKeepsUnique | SERVER/suwa_sawiya_backend/app/models/user.py:14 | Updating a user without touching email or registration number keeps both unique. |
| Database.Store.constructor | SERVER/suwa_sawiya_backend/app/models/user.py:9-23 | Freshly created tables are empty and valid. |
| AuthGuard.RoleRequired | SERVER/suwa_sawiya_backend/app/utils/auth.py:24-39 | An invalid token gives 401, a missing user or wrong role 403. It allows exactly a verified user of an allowed role. |
| AuthGuard.TokenRequired | SERVER/suwa_sawiya_backend/app/utils/auth.py:8-21 | Allows exactly a verified, existing, active user; every refusal is 401. |
| AuthGuard.Guard | SERVER/suwa_sawiya_backend/app/utils/auth.py:37 | The wrapped handler runs exactly when the check allows it; otherwise the check's code is returned. |
| AuthGuard.RoleGuardRunsOnlyForRoles | SERVER/suwa_sawiya_backend/app/utils/auth.py:33-37 | A guarded handler runs only for a user of an allowed role, and is refused with 401 or 403 otherwise. |
| AuthGuard.OnlyAdminsPassAdminGuard | SERVER/suwa_sawiya_backend/app/utils/auth.py:33-34 | The admin guard lets through exactly the admins; other users get 403. |
| AuthRoutes.AddUserKeepsUnique | SERVER/suwa_sawiya_backend/app/models/user.py:14 | Inserting a user with a new email and a new registration number keeps both unique. |
| AuthRoutes.RegisterDonor | SERVER/suwa_sawiya_backend/app/routes/auth.py:11-49 | 400 without email, password or first name; 400 for a registered email; otherwise the donor is stored with 201. Keeps `Valid`. |
| AuthRoutes.Organization | SERVER/suwa_sawiya_backend/app/routes/auth.py:67-80 | The partner columns are taken from the form. |
| AuthRoutes.RegisterPartner | SERVER/suwa_sawiya_backend/app/routes/auth.py:52-98 | 400 without the five required fields or for a registered email. A taken registration number gives 500. Otherwise the partner is stored with 201. Keeps `Valid`. |
| AuthRoutes.FindByEmail | SERVER/suwa_sawiya_backend/app/routes/auth.py:110 | The lookup finds a user with that email exactly when one exists. |
| AuthRoutes.FindByEmailExact | SERVER/suwa_sawiya_backend/app/routes/auth.py:110 | With unique emails it finds the one holding the email. |
| AuthRoutes.LoginCode | SERVER/suwa_sawiya_backend/app/routes/auth.py:107-126 | Missing credentials are 400, success 200, every other outcome 401. |
| AuthRoutes.Login | SERVER/suwa_sawiya_backend/app/routes/auth.py:101-128 | A login names an existing active user, and "inactive" is answered only for a known email. |
| AuthRoutes.LoginSucceedsExactly | SERVER/suwa_sawiya_backend/app/routes/auth.py:107-118 | Login succeeds for a user exactly when email and password are sent, the email is theirs, the password checks and the account is active. |
| AuthRoutes.InactiveOnlyWithPassword | SERVER/suwa_sawiya_backend/app/routes/auth.py:112-116 | "User account is inactive" is answered only after the password matched. |
| AuthRoutes.RegisteredUserLogsIn | SERVER/suwa_sawiya_backend/app/routes/auth.py:17-49 | A registered user logs in with the email and password they registered. |
| AuthRoutes.UpdatedProfile | SERVER/suwa_sawiya_backend/app/routes/auth.py:161-166 | Only first name, last name and phone change, each only when its key is sent. |
| AuthRoutes.UpdatedProfileIdempotent | SERVER/suwa_sawiya_backend/app/routes/auth.py:161-166 | Sending the same profile update twice has the effect of sending it once. |
| AuthRoutes.UpdateProfile | SERVER/suwa_sawiya_backend/app/routes/auth.py:147-173 | 404 for an unknown identity; otherwise only the caller's three profile fields change. Keeps `Valid`. |
| AuthRoutes.ChangePassword | SERVER/suwa_sawiya_backend/app/routes/auth.py:176-201 | 404 for an unknown identity, 400 unless both passwords are sent, 401 when the old one does not check. Otherwise only the caller's hash changes. |
| AuthRoutes.ChangedPasswordLogsIn | SERVER/suwa_sawiya_backend/app/routes/auth.py:189-196 | After a change the new password logs in and the old one is refused. |
| DonorRoutes.DonationPrecheck | SERVER/suwa_sawiya_backend/app/routes/donor.py:143-159 | Each refusal before the gateway is an error reply. |
| DonorRoutes.DonationPrecheckPasses | SERVER/suwa_sawiya_backend/app/routes/donor.py:143-159 | The gateway is reached exactly for a donor, a given existing campaign and a positive amount. A non-donor gets 401 first; a zero amount counts as missing. |
| DonorRoutes.CreateDonation | SERVER/suwa_sawiya_backend/app/routes/donor.py:137-197 | Refusals come in order and before the gateway call. A gateway error gives 400. Success stores one pending donation with the intent id, leaves `funds_raised` alone, and keeps `Valid`. |
| DonorRoutes.AddToTotal | SERVER/suwa_sawiya_backend/app/routes/donor.py:245 | The donor's `total_donated` rises by the amount. |
| DonorRoutes.CreditConfirmingUser | SERVER/suwa_sawiya_backend/app/routes/donor.py:244-245 | Only the confirming user can change, and only when the donation is not anonymous and they are a Donor; then their total rises by the amount. |
| DonorRoutes.PaymentRecord | SERVER/suwa_sawiya_backend/app/routes/donor.py:229-237 | The transaction is `success`, via stripe, references the intent id, carries the donation's amount, and holds the gateway's currency in upper case. |
| DonorRoutes.ConfirmKeepsTables | SERVER/suwa_sawiya_backend/app/routes/donor.py:225-248 | The confirmation's writes keep every table constraint and the ledger equation. |
| DonorRoutes.RecordPayment | SERVER/suwa_sawiya_backend/app/routes/donor.py:224-248 | The one commit: the donation is completed, the campaign credited, one transaction appended and the donor's total raised. Funds never decrease. |
| DonorRoutes.ConfirmDonation | SERVER/suwa_sawiya_backend/app/routes/donor.py:200-264 | 401, 404, then 400 for a failed or non-succeeded verification, and 500 for a taken reference, each changing nothing. Otherwise the whole commit happens. The ledger holds and funds never decrease. |
| DonorRoutes.UrgencyRank | SERVER/suwa_sawiya_backend/app/routes/donor.py:95-102 | critical 1, high 2, medium 3, low 4, anything else 5. |
| DonorRoutes.KeyLeTotalPreorder | SERVER/suwa_sawiya_backend/app/routes/donor.py:100-103 | The sort key (rank, then larger remaining first) orders any two campaigns, consistently. |
| DonorRoutes.KeyLeIsTotalPreorder | SERVER/suwa_sawiya_backend/app/routes/donor.py:100-103 | The key order is a total preorder. |
| DonorRoutes.InsertBy | SERVER/suwa_sawiya_backend/app/routes/donor.py:100-103 | Insertion adds exactly the element. |
| DonorRoutes.InsertKeepsLowerBound | SERVER/suwa_sawiya_backend/app/routes/donor.py:100-103 | A lower bound of the element and of the list bounds the result. |
| DonorRoutes.InsertSorted | SERVER/suwa_sawiya_backend/app/routes/donor.py:100-103 | Inserting into a sorted list keeps it sorted. |
| DonorRoutes.SortBy | SERVER/suwa_sawiya_backend/app/routes/donor.py:100-103 | `sorted` returns a permutation of its input. |
| DonorRoutes.SortBySorted | SERVER/suwa_sawiya_backend/app/routes/donor.py:100-103 | and that permutation is in key order. |
| DonorRoutes.Approved | SERVER/suwa_sawiya_backend/app/routes/donor.py:97 | Exactly the approved rows, each as often as listed. |
| DonorRoutes.PriorityCampaigns | SERVER/suwa_sawiya_backend/app/routes/donor.py:95-106 | Returns 20 campaigns, or every approved one when there are fewer. Its order and selection are `DonorRoutes.PriorityIsTopTwenty`. |
| DonorRoutes.TopOfSorted | SERVER/suwa_sawiya_backend/app/routes/donor.py:106 | A prefix of a sorted list is sorted, and everything cut off sorts at or after everything kept. |
| DonorRoutes.PriorityIsTopTwenty | SERVER/suwa_sawiya_backend/app/routes/donor.py:90-116 | At most 20 campaigns, fewer only when fewer are approved. All are approved, in key order, drawn from the approved rows. Nothing left out ranks before anything returned. |
| DonorRoutes.Contains | SERVER/suwa_sawiya_backend/app/routes/donor.py:68-70 | A match needs a text at least as long as the pattern; `DonorRoutes.ContainsMeaning` gives the full meaning. |
| DonorRoutes.ContainsMeaning | SERVER/suwa_sawiya_backend/app/routes/donor.py:68-70 | `%q%` matches exactly when `q` occurs at some position. |
| DonorRoutes.ILike | SERVER/suwa_sawiya_backend/app/routes/donor.py:68-70 | `%%` (an empty search text) matches every column. |
| DonorRoutes.MatchesSearch | SERVER/suwa_sawiya_backend/app/routes/donor.py:54-72 | Without filters, a row matches exactly when it is approved. |
| DonorRoutes.ILikeIgnoresCase | SERVER/suwa_sawiya_backend/app/routes/donor.py:68-70 | `ILIKE` ignores the case of both the column and the pattern. |
| DonorRoutes.SearchCampaigns | SERVER/suwa_sawiya_backend/app/routes/donor.py:54-72 | The result is exactly the matching rows, each as often as listed: approved, equal urgency and category when given, and the text found in title, beneficiary or condition. |
| DonorRoutes.SearchWithoutFilters | SERVER/suwa_sawiya_backend/app/routes/donor.py:54-72 | Without filters the search lists exactly the approved campaigns, in order. |
| DonorRoutes.FiltersOnlyDrop | SERVER/suwa_sawiya_backend/app/routes/donor.py:57-72 | Filters only drop approved rows. |
| PartnerRoutes.StoreUpload | SERVER/suwa_sawiya_backend/app/routes/partner.py:40-60 | An absent, unnamed or disallowed file is skipped without error. A failed write is an upload error. Otherwise the written path is kept. |
| PartnerRoutes.CreateCampaignCheck | SERVER/suwa_sawiya_backend/app/routes/partner.py:24-91 | Every refusal is an error reply. |
| PartnerRoutes.CreateCampaignCheckPasses | SERVER/suwa_sawiya_backend/app/routes/partner.py:32-68 | Creation proceeds exactly for a partner with the six fields truthy, both uploads fine, a convertible target and fresh keys. A zero target or empty title gives 400; a non-partner 403. |
| PartnerRoutes.CampaignFromForm | SERVER/suwa_sawiya_backend/app/routes/partner.py:63-76 | The new campaign is `pending` at 0 funds, owned by the caller, with the form's title, target and file paths. |
| PartnerRoutes.CreateCampaign | SERVER/suwa_sawiya_backend/app/routes/partner.py:18-100 | The handler as evidently intended, with the uploads read alongside the form fields (see Findings). Adds the campaign, plus a medical-certificate document when one was stored. Changes nothing on refusal. Keeps `Valid`. |
| PartnerRoutes.CreateCampaignCheckAsWritten | SERVER/suwa_sawiya_backend/app/routes/partner.py:24-51 | The checks as written: 403 for a non-partner, 500 for any request with a file part, otherwise the intended checks. Every refusal is an error reply. |
| PartnerRoutes.UploadRefusedAsWritten | SERVER/suwa_sawiya_backend/app/routes/partner.py:30-51 | As written, a partner's request carrying a medical certificate gets 500, because the JSON body is read before the files. The intended checks accept the same request and record the document. |
| PartnerRoutes.BeneficiaryTitle | SERVER/suwa_sawiya_backend/app/routes/partner.py:125 | The title is "Medical Campaign for " followed by the name. |
| PartnerRoutes.RegisterBeneficiaryCheck | SERVER/suwa_sawiya_backend/app/routes/partner.py:110-122 | Every refusal is an error reply. |
| PartnerRoutes.RegisterBeneficiaryCheckPasses | SERVER/suwa_sawiya_backend/app/routes/partner.py:120-122 | It passes exactly with the five fields. The campaign form's fields imply them, but not conversely (no title needed). |
| PartnerRoutes.RegisterBeneficiary | SERVER/suwa_sawiya_backend/app/routes/partner.py:104-147 | Adds one pending campaign titled for the beneficiary, at 0 funds. Keeps `Valid`. |
| PartnerRoutes.CompletedDonations | SERVER/suwa_sawiya_backend/app/routes/partner.py:215-218 | Exactly the campaign's completed donations. |
| PartnerRoutes.Named | SERVER/suwa_sawiya_backend/app/routes/partner.py:220 | The completed donations carrying a donor id. |
| PartnerRoutes.Anonymous | SERVER/suwa_sawiya_backend/app/routes/partner.py:221 | The completed donations marked anonymous. |
| PartnerRoutes.CampaignProgress | SERVER/suwa_sawiya_backend/app/routes/partner.py:202-241 | Refused exactly for a non-partner (403) or a campaign not found or not owned (404). |
| PartnerRoutes.DistinctDonorsAtMostNamed | SERVER/suwa_sawiya_backend/app/routes/partner.py:220 | Distinct donors are never more than named donations. |
| PartnerRoutes.ProgressCountsAgree | SERVER/suwa_sawiya_backend/app/routes/partner.py:214-234 | Donors plus anonymous donations never exceed the donation count, which is the number of completed donations. Remaining is target minus raised. |
| PartnerRoutes.ProgressRefusedAsWritten | SERVER/suwa_sawiya_backend/app/routes/partner.py:211-212 | As written, even the owning partner gets 404; the ownership check the code intends serves them. |
| PartnerRoutes.DisbursementCheck | SERVER/suwa_sawiya_backend/app/routes/partner.py:251-266 | Every refusal is an error reply. |
| PartnerRoutes.DisbursementCheckPasses | SERVER/suwa_sawiya_backend/app/routes/partner.py:254-266 | A request passes exactly for the owning partner with a truthy amount where 0 < amount ≤ `funds_raised` and a fresh key. An unowned campaign gives 404; an amount above the funds 400. |
| PartnerRoutes.RequestDisbursement | SERVER/suwa_sawiya_backend/app/routes/partner.py:245-287 | Adds exactly one pending disbursement of the amount. Omitted bank fields default to the partner's own. Funds and campaigns are unchanged. Keeps `Valid`. |
| PartnerRoutes.DisbursementRefusedAsWritten | SERVER/suwa_sawiya_backend/app/routes/partner.py:255-256 | As written, every partner's request is refused with 404. |
| AdminRoutes.ApproveCampaign | SERVER/suwa_sawiya_backend/app/routes/admin.py:98-122 | 403 for a non-admin, 404 for an unknown campaign. Otherwise only status (`approved`) and `updated_at` change. |
| AdminRoutes.RejectCampaign | SERVER/suwa_sawiya_backend/app/routes/admin.py:125-151 | The same with `rejected`. |
| AdminRoutes.VerifyPartner | SERVER/suwa_sawiya_backend/app/routes/admin.py:189-211 | 404 unless a partner. Otherwise only `is_verified = true` and `updated_at` change. |
| AdminRoutes.RejectPartner | SERVER/suwa_sawiya_backend/app/routes/admin.py:214-240 | Otherwise only `is_active = false` and `updated_at` change. |
| AdminRoutes.SetField | SERVER/suwa_sawiya_backend/app/routes/admin.py:291-295 | Assigning fails exactly for null on a NOT NULL column or an unconvertible target. |
| AdminRoutes.UpdateTouchesOnlyWhitelist | SERVER/suwa_sawiya_backend/app/routes/admin.py:288-295 | The loop changes only title, description, category, urgency and target. |
| AdminRoutes.UpdateFieldsMeaning | SERVER/suwa_sawiya_backend/app/routes/admin.py:288-295 | The loop's result equals the whitelisted fields sent, taken from the body each at once. |
| AdminRoutes.UpdateCampaign | SERVER/suwa_sawiya_backend/app/routes/admin.py:274-306 | 403, 404, or 500 for a bad value. Otherwise the whitelisted update plus `updated_at`; `funds_raised` and status never change. |
| AdminRoutes.DisbursementsExcept | SERVER/suwa_sawiya_backend/app/models/campaign.py:43 | The cascade keeps exactly the disbursements of other campaigns. |
| AdminRoutes.ReportsExcept | SERVER/suwa_sawiya_backend/app/models/campaign.py:44 | The same for fraud reports. |
| AdminRoutes.DocumentsExcept | SERVER/suwa_sawiya_backend/app/models/campaign.py:42 | The same for documents. |
| AdminRoutes.HasPaidDonation | SERVER/suwa_sawiya_backend/app/routes/admin.py:320-321 | No contract of its own; the condition under which `AdminRoutes.DeleteCampaign` fails at flush, implied for a funded campaign by `AdminRoutes.FundedCampaignIsPinned`. |
| AdminRoutes.FundedCampaignIsPinned | SERVER/suwa_sawiya_backend/app/models/campaign.py:103 | A campaign with funds has a paid donation, so it cannot be deleted. |
| AdminRoutes.DeleteCampaign | SERVER/suwa_sawiya_backend/app/routes/admin.py:309-327 | 403, 404, or 500 when a donation has a transaction. Otherwise the campaign goes with its donations, documents, disbursements and reports by cascade. Keeps `Valid`. |
| AdminRoutes.InvestigateFraudReport | SERVER/suwa_sawiya_backend/app/routes/admin.py:360-382 | Sets `investigating` whatever the prior status. |
| AdminRoutes.ConfirmFraud | SERVER/suwa_sawiya_backend/app/routes/admin.py:385-415 | In one commit the report becomes `confirmed` with the notes and the campaign `cancelled`. Disbursements are untouched. |
| AdminRoutes.DismissFraudReport | SERVER/suwa_sawiya_backend/app/routes/admin.py:418-443 | Sets `dismissed` with the notes; the campaign is untouched. |
| AdminRoutes.ApproveDisbursement | SERVER/suwa_sawiya_backend/app/routes/admin.py:477-504 | Sets `approved`, the approver, the notes and the time, with no re-check. `funds_raised` is unchanged. |
| DottedPath.Child | Client/src/contexts/LanguageContext.jsx:21 | A property is found exactly on an object having that own key. |
| DottedPath.WalkAppend | Client/src/contexts/LanguageContext.tsx:19-27 | Walking a path in two legs is walking it at once. |
| DottedPath.EmptyObjectHasNoPaths | Client/src/contexts/LanguageContext.jsx:19 | An empty object has no path. |
| DottedPath.Split | Client/src/contexts/LanguageContext.tsx:17 | `split('.')` gives at least one piece, none holding a dot. |
| DottedPath.JoinSplit | Client/src/contexts/LanguageContext.tsx:17 | Joining the pieces gives the path back. |
| DottedPath.SplitJoin | Client/src/contexts/LanguageContext.tsx:17 | Dot-free pieces come back out of their join, so distinct key paths have distinct names. |
| LanguageTsx.Code | Client/src/contexts/LanguageContext.tsx:15 | Each language's table key; only English is "en". |
| LanguageTsx.Translate | Client/src/contexts/LanguageContext.tsx:16-29 | Throws exactly when the language has no table, and returns an object only when the current language lacks a key and English holds that object at the path. |
| LanguageTsx.LanguageProvider.constructor | Client/src/contexts/LanguageContext.tsx:15 | The provider starts in English. |
| LanguageTsx.LanguageProvider.SetLanguage | Client/src/contexts/LanguageContext.tsx:15 | `setLanguage` replaces the language. |
| LanguageTsx.LanguageProvider.T | Client/src/contexts/LanguageContext.tsx:16-29 | The loop computes the lookup: the current language's string, the path for a non-string, the English value or the path for a missing key. A language without a table throws. |
| LanguageTsx.TranslateIsString | Client/src/contexts/LanguageContext.tsx:16-29 | When every language has English's shape, `t` always returns a string. |
| LanguageTsx.TranslateCanReturnObject | Client/src/contexts/LanguageContext.tsx:22-24 | Otherwise `fallback \|\| path` can return an English object in place of a string. |
| LanguageTsx.EnglishOnlyOnMissingKey | Client/src/contexts/LanguageContext.tsx:20-26 | English is consulted only for a missing key. |
| LanguageTsx.EnglishMissingIsPath | Client/src/contexts/LanguageContext.tsx:20-24 | In English a missing key gives the path. |
| LanguageTsx.UseLanguage | Client/src/contexts/LanguageContext.tsx:38-44 | Outside a provider `useLanguage` throws. |
| LanguageJsx.Root | Client/src/contexts/LanguageContext.jsx:19 | An unknown language reads as an empty object. |
| LanguageJsx.Translate | Client/src/contexts/LanguageContext.jsx:17-28 | `t` returns the string at the end of the walk, and otherwise the path itself. |
| LanguageJsx.LanguageProvider.constructor | Client/src/contexts/LanguageContext.jsx:6 | The provider starts in English. |
| LanguageJsx.LanguageProvider.ChangeLanguage | Client/src/contexts/LanguageContext.jsx:7 | `changeLanguage` replaces the language with any value. |
| LanguageJsx.LanguageProvider.T | Client/src/contexts/LanguageContext.jsx:17-28 | The loop computes `Translate`. |
| LanguageJsx.UnknownLanguageGivesPath | Client/src/contexts/LanguageContext.jsx:19-25 | With an unknown language every lookup returns its path. |
| LanguageJsx.AgreesWithTsxInEnglish | Client/src/contexts/LanguageContext.jsx:17-28 | In English the two contexts agree on every path. |
| LanguageJsx.AgreesWithTsxWhenFound | Client/src/contexts/LanguageContext.jsx:20-27 | Where the current language has every key of the path, the two agree. They differ only on a missing key. |
| LanguageJsx.UseLanguage | Client/src/contexts/LanguageContext.jsx:11-15 | Outside a provider `useLanguage` throws. |

## Findings

| source | as written | input that shows it | evidently intended | confidence | as-written member | corrected member |
|---|---|---|---|---|---|---|
| SERVER/suwa_sawiya_backend/app/routes/partner.py:255 | `campaign.partner_id != partner_id` compares a `uuid.UUID` (the column is `UUID(as_uuid=True)`) with the JWT identity, a `str`; the two are never equal | the owning partner requests 10 from a campaign they created with `funds_raised` 100 | 404 only for a missing or foreign campaign; the owner's request is checked against the funds | high (not executed) | PartnerRoutes.DisbursementRefusedAsWritten | PartnerRoutes.RequestDisbursement |
| SERVER/suwa_sawiya_backend/app/routes/partner.py:30 | `request.get_json()` runs before `request.files` is read (partner.py:40, 51); a request with file parts is multipart, so reading JSON raises and the handler answers 500 | a partner posts a complete campaign with a `medical_document` file | uploads stored, campaign and document recorded, 201 | medium (not executed) | PartnerRoutes.UploadRefusedAsWritten | PartnerRoutes.CreateCampaign |
| SERVER/suwa_sawiya_backend/app/routes/partner.py:211 | the same `UUID != str` comparison in `get_campaign_progress` | the owning partner asks for the progress of their own campaign | the owner is served the statistics | high (not executed) | PartnerRoutes.ProgressRefusedAsWritten | PartnerRoutes.CampaignProgress |

## Left out

- Floating point: amounts, targets and percentages are integers or reals. Rounding to two places, `inf`, `nan` and the gateway's conversion to cents are not modelled.
- Concurrency: the handlers are modelled one at a time. Two requests racing on the same row are not.
- The JWT itself (signature, expiry, `create_access_token`): a token is either invalid or names an identity.
- The payment gateway (app/utils/payment.py), file writes (`file.save`, `os.makedirs`, `secure_filename`, the timestamp prefix) and `delete_file`. Their outcomes are parameters.
- Read-only listing and dashboard handlers (`get_campaigns`, `get_campaign_details`, `get_donor_donations`, `get_campaign_updates`, `get_partner_campaigns`, `admin_dashboard`, the pending and all-rows listings of admin.py), `get_profile` and `get_partner_profile`: they change nothing and only serialise rows.
- `upload_document` and `update_partner_profile` in partner.py: they do not touch funds or statuses.
- Pagination of search results: `SearchCampaigns` returns every matching row; only the page arithmetic is modelled (`Response.PaginatedResponse`).
- Reply messages and `to_dict` payloads beyond the fields named in the model.
- Malformed uuid path parameters, request bodies that are not JSON objects, and JSON booleans or arrays in text fields. A non-string JSON value in a text field of the create forms is also not modelled.
- Column length limits (`String(255)` and the like) and the database errors they raise.
- `LIKE` wildcards (`%`, `_`) inside the search text, and case folding beyond ASCII.
- `onupdate` timestamps: rows that the handlers update without setting `updated_at` themselves (`update_profile`, `change_password`, `confirm_donation`) keep their old `updated_at` in the model.
- Password hashing: Werkzeug's salted hash is modelled by what the digest is a function of, so a password checks exactly against the one it was set to; hash collisions are not modelled.
- JavaScript prototype properties (`toString`, `constructor`) and the index and `length` properties of strings in the translation walk. The contents of `MOCK_TRANSLATIONS` are not transcribed: the lookup lemmas hold for every table.
- `Partner.is_verified` and `User.is_verified` are one flag in the model, the one `verify_partner` sets.
- The seeding, initialisation and check scripts (seed_db.py, init_db.py, check_db.py). The model starts from empty tables, so every campaign is created through the partner routes at `funds_raised = 0`.
