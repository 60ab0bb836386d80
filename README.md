# Attachment view/save policy of the Android Email client

This project models `AttachmentInfo`, the object the mail client builds for
one attachment to decide whether it may be **viewed** and whether it may be
**saved**. Its constructor seeds two flags true and runs five rules in a
fixed order. Each rule can only clear a flag:

1. the MIME type is outside the acceptable view types, or inside the unacceptable ones: no view;
2. the filename extension is non-empty and unacceptable: no view, no save;
3. the extension is non-empty and installable: no view, and save only if the
   non-market-install setting is 1 (a missing setting reads as 0);
4. the size exceeds the download limit and there is no active WiFi network: no view, no save;
5. no activity answers the view intent for the attachment: no view, no save.

`eligibleForDownload()` is "viewable or savable".

Files:

- `wrappers.dfy`: module `Wrappers`, the `Option` type. It models a platform lookup that may return nothing, such as Java `null` or a missing setting.
- `flag_rules.dfy`: module `FlagRules`, the algebra of the rule chain.
  - `Flags` is the pair of permissions.
  - A `Rule` is a condition plus the flags it ANDs away when the condition holds.
  - `ApplyRules` runs a chain in order.
  - Lemmas cover this algebra: the chain equals a conjunction, never grants a flag, is non-increasing step by step, does not depend on rule order, and is monotone in rule strictness.
- `attachment_info.dfy`: module `AttachmentPolicy`.
  - The inputs: `Attachment`, `Config` (the `Email.*` lists and size limit), `Helpers` (the helper functions from other files), `Device` (the platform snapshot) and `Context`.
  - The five rule conditions. `CheckRules` lists them in source order, and `Evaluate` runs them.
  - The closed forms `ViewAllowed`, `SaveAllowed` and `Eligible`, and one lemma per rule.
  - The class `AttachmentInfo`. Its constructor is the imperative rule chain on two local flags and is proved equal to the closed form. `EligibleForDownload` is proved against `Eligible`.

The platform queries are inputs:
- `sideloadSetting: Option<int>` is the secure setting for non-market installs.
- `activeNetwork: Option<NetworkInfo>` is the active network.
- `viewHandlers: int -> nat` is the number of activities resolving the view intent built for an attachment id.

The helpers `inferMimeType`, `mimeTypeMatches`, `getFilenameExtension` and `arrayContains` are function-valued fields of `Helpers`. The model assumes nothing about them beyond being deterministic. So the model makes no claim about wildcard MIME matching or about case-insensitive extensions.

## Model

| member | source | states |
|---|---|---|
| `AttachmentPolicy.AttachmentInfo.constructor` | src/com/android/email/AttachmentInfo.java:47-104 | after the five rules run in order on flags seeded true, the stored view flag is true iff no rule fires, and the stored save flag is true iff the extension is not unacceptable, is not installable unless sideload is 1, the size rule does not fire and a viewer exists; the copied fields are the attachment's, with the inferred content type |
| `AttachmentPolicy.AttachmentInfo.EligibleForDownload` | src/com/android/email/AttachmentInfo.java:124-126 | true exactly when view or save is allowed, which is the closed form `Eligible`: no unacceptable extension, installable only with sideload 1, size rule not firing, a viewer present |
| `AttachmentPolicy.EvaluateClosedForm` | src/com/android/email/AttachmentInfo.java:52-103 | the rule chain's view flag holds iff the MIME type is acceptable and no extension, size or viewer rule fires; its save flag holds iff the extension is not unacceptable, is not installable unless sideload is 1, the size rule does not fire and a viewer exists (both directions) |
| `AttachmentPolicy.EligibleClosedForm` | src/com/android/email/AttachmentInfo.java:124-126 | view-or-save holds iff `Eligible`, so eligibility does not depend on the MIME lists |
| `AttachmentPolicy.RulesOnlyClear` | src/com/android/email/AttachmentInfo.java:52-100 | each of the five steps leaves the flags unchanged or lower, and a flag cleared by any rule is false at the end |
| `AttachmentPolicy.EvaluateOrderIrrelevant` | src/com/android/email/AttachmentInfo.java:55-100 | any reordering of the five rules yields the same flags |
| `AttachmentPolicy.MimeMismatchDeniesView` | src/com/android/email/AttachmentInfo.java:55-59 | a type failing the allow-list or matching the deny-list is not viewable; saving is then decided by the other rules alone |
| `AttachmentPolicy.UnacceptableExtensionDeniesBoth` | src/com/android/email/AttachmentInfo.java:61-67 | a non-empty extension in the unacceptable list clears both flags |
| `AttachmentPolicy.EmptyExtensionSkipsExtensionRules` | src/com/android/email/AttachmentInfo.java:62-78 | with a null or empty extension, the result is the same for any extension lists and any sideload setting |
| `AttachmentPolicy.InstallableExtensionGatesSave` | src/com/android/email/AttachmentInfo.java:69-78 | an installable extension clears the view flag; the save flag survives iff it survived rules 1-2, sideload is 1 and rules 4-5 do not fire; a missing setting clears it |
| `AttachmentPolicy.OversizeOffWifiDeniesBoth` | src/com/android/email/AttachmentInfo.java:80-90 | size over the limit with no active network or a non-WiFi one clears both flags |
| `AttachmentPolicy.WithinLimitIgnoresNetwork` | src/com/android/email/AttachmentInfo.java:82-90 | within the size limit the result is the same for every network state |
| `AttachmentPolicy.WifiIgnoresSize` | src/com/android/email/AttachmentInfo.java:81-90 | on WiFi the result is the same for every size |
| `AttachmentPolicy.NoViewerDeniesBoth` | src/com/android/email/AttachmentInfo.java:92-100 | zero activities for the view intent clears both flags whatever the other rules say |
| `AttachmentPolicy.NothingFiresGrantsBoth` | src/com/android/email/AttachmentInfo.java:52-103 | acceptable type, unlisted extension, size within the limit and at least one viewer give both permissions |
| `AttachmentPolicy.LargerDenyListGrantsLess` | src/com/android/email/AttachmentInfo.java:61-67 | a deny-list that denies the extension whenever the old one did grants no permission the old one did not |
| `FlagRules.ApplyRule` | src/com/android/email/AttachmentInfo.java:55-100 | one rule block keeps a flag iff it was set and the rule does not clear it; it never grants |
| `FlagRules.ApplyRulesIsConjunction` | src/com/android/email/AttachmentInfo.java:52-103 | running a chain gives each starting flag ANDed with "no rule of the chain clears it" |
| `FlagRules.ApplyRulesNeverGrants` | src/com/android/email/AttachmentInfo.java:52-103 | a chain's result grants nothing its starting flags did not |
| `FlagRules.ClearedFlagStaysCleared` | src/com/android/email/AttachmentInfo.java:52-100 | a flag cleared by any rule of the chain is false in the result |
| `FlagRules.StepNonIncreasing` | src/com/android/email/AttachmentInfo.java:52-100 | each additional rule leaves the flags unchanged or lower |
| `FlagRules.OrderIrrelevant` | src/com/android/email/AttachmentInfo.java:55-100 | two chains holding the same rules in any order give the same flags |
| `FlagRules.StricterRulesGrantLess` | src/com/android/email/AttachmentInfo.java:52-103 | a chain whose rules are each at least as strict, started from no more, ends with no more |

## Left out

- `getAttachmentIntent` (src/com/android/email/AttachmentInfo.java:109-118) builds an Android `Intent` through the content resolver and the attachment provider. It is foreign platform code. Its only effect on the policy is through the handler query, which is the input `Device.viewHandlers`, keyed by attachment id.
- `Settings.Secure.getInt`, `ConnectivityManager.getActiveNetworkInfo` and `PackageManager.queryIntentActivities` are platform queries. They are inputs: an optional integer, an optional network and a handler count.
- `MimeUtility.mimeTypeMatches`, `AttachmentProvider.inferMimeType`, `AttachmentProvider.getFilenameExtension`, `Utility.arrayContains` and the `Email.*` lists and limit are defined in files that are not part of this model. They are opaque parameters. Wildcard subtype matching and case-insensitive extensions are therefore not modelled, and no lemma claims that `FILE.EXE` and `file.exe` are treated alike.
- The constructor calls `getFilenameExtension` twice. The model calls the same helper function twice, so both calls give the same value. A helper that answered differently on the two calls is not modelled.
- `TypeWifi` is the platform's value of `ConnectivityManager.TYPE_WIFI`, which is 1.
- `mSize` is a Java `long`, and the model uses an unbounded `int`. It is only compared with the limit, so no wrap-around can arise.
- Calling the evaluation twice with the same inputs gives the same flags because `Evaluate` is a function. No separate lemma states this.
