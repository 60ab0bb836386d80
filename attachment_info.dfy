/**
 * The mail client's attachment view/save policy: for one attachment, decide
 * whether it may be viewed and whether it may be saved, from its MIME type,
 * its filename extension, its size, the network state, the sideload setting
 * and the number of installed activities able to view it.
 *
 * The platform lookups and the helpers defined elsewhere in the client are
 * inputs here: the helpers are function-valued fields of `Helpers` about which
 * nothing is assumed, and the device state is a snapshot in `Device`.
 */
module AttachmentPolicy {
  import opened Wrappers
  import opened FlagRules

  /** The network type the platform reports for a WiFi connection (`ConnectivityManager.TYPE_WIFI`). */
  const TypeWifi: int := 1

  /** The stored attachment record the policy is evaluated for. */
  datatype Attachment = Attachment(fileName: string, mimeType: string, size: int, id: int)

  /** The client's static policy lists and size limit (`Email.*`). */
  datatype Config = Config(
    acceptableViewTypes: seq<string>,
    unacceptableViewTypes: seq<string>,
    unacceptableExtensions: seq<string>,
    installableExtensions: seq<string>,
    maxDownloadSize: int)

  /**
   * The helpers the evaluation calls, left uninterpreted: no wildcard matching,
   * no case folding and no particular membership test is assumed of them.
   * An extension of `None` is a `null` string.
   */
  datatype Helpers = Helpers(
    inferMimeType: (string, string) -> string,
    mimeTypeMatches: (string, seq<string>) -> bool,
    getFilenameExtension: string -> Option<string>,
    arrayContains: (seq<string>, string) -> bool)

  /** What the connectivity service reports about the active network. */
  datatype NetworkInfo = NetworkInfo(netType: int)

  /**
   * A snapshot of the device state the evaluation queries: the secure setting
   * for non-market installs (`None` when it is not stored), the active network
   * (`None` when there is none), and, for an attachment id, the number of
   * activities that answer the view intent built for that attachment.
   */
  datatype Device = Device(
    sideloadSetting: Option<int>,
    activeNetwork: Option<NetworkInfo>,
    viewHandlers: int -> nat)

  /** Everything the constructor reaches through its `Context` argument and the static lists. */
  datatype Context = Context(config: Config, helpers: Helpers, device: Device)

  // ---------------------------------------------------------------------
  // The conditions of the five rules.

  /** The effective content type: the declared type, or one inferred from the filename. */
  function ContentTypeOf(ctx: Context, a: Attachment): string
  {
    ctx.helpers.inferMimeType(a.fileName, a.mimeType)
  }

  /** `TextUtils.isEmpty`: a null or zero-length string. */
  predicate IsEmpty(s: Option<string>)
  {
    s.None? || |s.value| == 0
  }

  /** Rule 1: the type matches no acceptable type, or matches an unacceptable one. */
  predicate MimeBlocksView(ctx: Context, a: Attachment)
  {
    var t := ContentTypeOf(ctx, a);
    !ctx.helpers.mimeTypeMatches(t, ctx.config.acceptableViewTypes)
    || ctx.helpers.mimeTypeMatches(t, ctx.config.unacceptableViewTypes)
  }

  /** The filename has a non-empty extension that `list` contains. */
  predicate ExtensionListed(ctx: Context, a: Attachment, list: seq<string>)
  {
    var e := ctx.helpers.getFilenameExtension(a.fileName);
    !IsEmpty(e) && ctx.helpers.arrayContains(list, e.value)
  }

  /** Rule 2 fires. */
  predicate ExtensionUnacceptable(ctx: Context, a: Attachment)
  {
    ExtensionListed(ctx, a, ctx.config.unacceptableExtensions)
  }

  /** Rule 3 fires. */
  predicate ExtensionInstallable(ctx: Context, a: Attachment)
  {
    ExtensionListed(ctx, a, ctx.config.installableExtensions)
  }

  /** The sideload setting, read with 0 ("disabled") as the default for a missing entry. */
  function SideloadSetting(d: Device): int
  {
    d.sideloadSetting.GetOr(0)
  }

  /** Installing non-market packages is enabled exactly when the setting is 1. */
  predicate SideloadEnabled(d: Device)
  {
    SideloadSetting(d) == 1
  }

  /** There is an active network and it is WiFi. */
  predicate OnWifi(d: Device)
  {
    d.activeNetwork.Some? && d.activeNetwork.value.netType == TypeWifi
  }

  /** Rule 4 fires: over the size limit, and not on WiFi. */
  predicate TooLargeForNetwork(ctx: Context, a: Attachment)
  {
    a.size > ctx.config.maxDownloadSize && !OnWifi(ctx.device)
  }

  /** Rule 5 fires: no activity can view the attachment. */
  predicate NoViewer(ctx: Context, a: Attachment)
  {
    ctx.device.viewHandlers(a.id) == 0
  }

  // ---------------------------------------------------------------------
  // The rule chain and its closed form.

  /** The five rules in the order the constructor runs them. */
  function CheckRules(ctx: Context, a: Attachment): seq<Rule>
  {
    [ Rule(MimeBlocksView(ctx, a), false, true),
      Rule(ExtensionUnacceptable(ctx, a), false, false),
      Rule(ExtensionInstallable(ctx, a), false, SideloadEnabled(ctx.device)),
      Rule(TooLargeForNetwork(ctx, a), false, false),
      Rule(NoViewer(ctx, a), false, false) ]
  }

  /** The flags the rule chain leaves, starting from both permissions granted. */
  function Evaluate(ctx: Context, a: Attachment): Flags
  {
    ApplyRules(CheckRules(ctx, a), Flags(true, true))
  }

  /** Viewing is allowed exactly when no rule at all fires. */
  predicate ViewAllowed(ctx: Context, a: Attachment)
  {
    !MimeBlocksView(ctx, a) && !ExtensionUnacceptable(ctx, a) && !ExtensionInstallable(ctx, a)
    && !TooLargeForNetwork(ctx, a) && !NoViewer(ctx, a)
  }

  /** Saving is allowed when no save-clearing rule fires; an installable extension is tolerated only with sideloading enabled. */
  predicate SaveAllowed(ctx: Context, a: Attachment)
  {
    !ExtensionUnacceptable(ctx, a) && (!ExtensionInstallable(ctx, a) || SideloadEnabled(ctx.device))
    && !TooLargeForNetwork(ctx, a) && !NoViewer(ctx, a)
  }

  /** Viewable or savable, stated without reference to the MIME rule, which only ever clears the view flag. */
  predicate Eligible(ctx: Context, a: Attachment)
  {
    !ExtensionUnacceptable(ctx, a) && (!ExtensionInstallable(ctx, a) || SideloadEnabled(ctx.device))
    && !TooLargeForNetwork(ctx, a) && !NoViewer(ctx, a)
  }

  /** The rule chain agrees with the closed form, in both directions, for each flag. */
  lemma EvaluateClosedForm(ctx: Context, a: Attachment)
    ensures Evaluate(ctx, a).view <==> ViewAllowed(ctx, a)
    ensures Evaluate(ctx, a).save <==> SaveAllowed(ctx, a)
  {
    var rs := CheckRules(ctx, a);
    ApplyRulesIsConjunction(rs, Flags(true, true));
    assert forall r :: r in rs <==> r == rs[0] || r == rs[1] || r == rs[2] || r == rs[3] || r == rs[4];
    assert rs[0] in rs && rs[1] in rs && rs[2] in rs && rs[3] in rs && rs[4] in rs;
  }

  /** Download eligibility does not depend on the MIME type at all. */
  lemma EligibleClosedForm(ctx: Context, a: Attachment)
    ensures Evaluate(ctx, a).view || Evaluate(ctx, a).save <==> Eligible(ctx, a)
  {
    EvaluateClosedForm(ctx, a);
  }

  /** Every rule of the chain only clears flags: each step leaves them unchanged or lower. */
  lemma RulesOnlyClear(ctx: Context, a: Attachment, k: int)
    requires 0 <= k < 5
    ensures AtMost(ApplyRules(CheckRules(ctx, a)[..k + 1], Flags(true, true)),
                   ApplyRules(CheckRules(ctx, a)[..k], Flags(true, true)))
    ensures ClearsView(CheckRules(ctx, a)[k]) ==> !Evaluate(ctx, a).view
    ensures ClearsSave(CheckRules(ctx, a)[k]) ==> !Evaluate(ctx, a).save
  {
    StepNonIncreasing(CheckRules(ctx, a), Flags(true, true), k);
    ClearedFlagStaysCleared(CheckRules(ctx, a), Flags(true, true), k);
  }

  /** Running the five rules in any order yields the same flags. */
  lemma EvaluateOrderIrrelevant(ctx: Context, a: Attachment, qs: seq<Rule>)
    requires multiset(qs) == multiset(CheckRules(ctx, a))
    ensures ApplyRules(qs, Flags(true, true)) == Evaluate(ctx, a)
  {
    OrderIrrelevant(qs, CheckRules(ctx, a), Flags(true, true));
  }

  /** Rule 1: a type outside the allow-list, or inside the deny-list, cannot be viewed. */
  lemma MimeMismatchDeniesView(ctx: Context, a: Attachment)
    requires MimeBlocksView(ctx, a)
    ensures !Evaluate(ctx, a).view
    ensures Evaluate(ctx, a).save <==> SaveAllowed(ctx, a)
  {
    EvaluateClosedForm(ctx, a);
  }

  /** Rule 2: an unacceptable extension can be neither viewed nor saved. */
  lemma UnacceptableExtensionDeniesBoth(ctx: Context, a: Attachment)
    requires ExtensionUnacceptable(ctx, a)
    ensures !Evaluate(ctx, a).view && !Evaluate(ctx, a).save
  {
    EvaluateClosedForm(ctx, a);
  }

  /**
   * Rules 2 and 3 are skipped for an empty (or null) extension: the result
   * then depends neither on the two extension lists nor on the sideload setting.
   */
  lemma EmptyExtensionSkipsExtensionRules(ctx: Context, a: Attachment,
                                          unacceptable: seq<string>, installable: seq<string>,
                                          sideload: Option<int>)
    requires IsEmpty(ctx.helpers.getFilenameExtension(a.fileName))
    ensures Evaluate(ctx, a) ==
            Evaluate(ctx.(config := ctx.config.(unacceptableExtensions := unacceptable,
                                                installableExtensions := installable),
                          device := ctx.device.(sideloadSetting := sideload)), a)
  {
    var ctx' := ctx.(config := ctx.config.(unacceptableExtensions := unacceptable,
                                           installableExtensions := installable),
                     device := ctx.device.(sideloadSetting := sideload));
    EvaluateClosedForm(ctx, a);
    EvaluateClosedForm(ctx', a);
  }

  /**
   * Rule 3: an installable extension is never viewable, and it stays savable
   * only if saving was still allowed and the sideload setting is 1; a missing
   * setting counts as 0, which disables it.
   */
  lemma InstallableExtensionGatesSave(ctx: Context, a: Attachment)
    requires ExtensionInstallable(ctx, a)
    ensures !Evaluate(ctx, a).view
    ensures Evaluate(ctx, a).save <==>
            SideloadEnabled(ctx.device) && ApplyRules(CheckRules(ctx, a)[..2], Flags(true, true)).save
            && !TooLargeForNetwork(ctx, a) && !NoViewer(ctx, a)
    ensures ctx.device.sideloadSetting.None? ==> !Evaluate(ctx, a).save
  {
    var rs := CheckRules(ctx, a);
    EvaluateClosedForm(ctx, a);
    ApplyRulesIsConjunction(rs[..2], Flags(true, true));
    assert forall r :: r in rs[..2] <==> r == rs[0] || r == rs[1];
  }

  /** Rule 4: over the limit and not on WiFi, the attachment can be neither viewed nor saved. */
  lemma OversizeOffWifiDeniesBoth(ctx: Context, a: Attachment)
    requires a.size > ctx.config.maxDownloadSize
    requires ctx.device.activeNetwork.None? || ctx.device.activeNetwork.value.netType != TypeWifi
    ensures !Evaluate(ctx, a).view && !Evaluate(ctx, a).save
  {
    EvaluateClosedForm(ctx, a);
  }

  /** Rule 4 does not fire within the size limit: the network state is then irrelevant. */
  lemma WithinLimitIgnoresNetwork(ctx: Context, a: Attachment, network: Option<NetworkInfo>)
    requires a.size <= ctx.config.maxDownloadSize
    ensures Evaluate(ctx, a) == Evaluate(ctx.(device := ctx.device.(activeNetwork := network)), a)
  {
  }

  /** Rule 4 does not fire on WiFi: the size is then irrelevant. */
  lemma WifiIgnoresSize(ctx: Context, a: Attachment, size: int)
    requires OnWifi(ctx.device)
    ensures Evaluate(ctx, a) == Evaluate(ctx, a.(size := size))
  {
  }

  /** Rule 5: with no activity able to view it, the attachment can be neither viewed nor saved, whatever the other rules say. */
  lemma NoViewerDeniesBoth(ctx: Context, a: Attachment)
    requires ctx.device.viewHandlers(a.id) == 0
    ensures !Evaluate(ctx, a).view && !Evaluate(ctx, a).save
  {
    EvaluateClosedForm(ctx, a);
  }

  /** With nothing firing, both permissions are granted (for instance an accepted image type on a small file with a viewer). */
  lemma NothingFiresGrantsBoth(ctx: Context, a: Attachment)
    requires !MimeBlocksView(ctx, a) && !ExtensionUnacceptable(ctx, a) && !ExtensionInstallable(ctx, a)
    requires a.size <= ctx.config.maxDownloadSize && ctx.device.viewHandlers(a.id) > 0
    ensures Evaluate(ctx, a) == Flags(true, true)
  {
    EvaluateClosedForm(ctx, a);
  }

  /**
   * Monotonicity in the extension deny-list: changing the unacceptable
   * extensions so that the attachment's extension is denied whenever it was
   * denied before can only take permissions away, never grant them.
   */
  lemma LargerDenyListGrantsLess(ctx: Context, a: Attachment, unacceptable: seq<string>)
    requires ExtensionUnacceptable(ctx, a) ==>
             ExtensionUnacceptable(ctx.(config := ctx.config.(unacceptableExtensions := unacceptable)), a)
    ensures AtMost(Evaluate(ctx.(config := ctx.config.(unacceptableExtensions := unacceptable)), a),
                   Evaluate(ctx, a))
  {
    var ctx' := ctx.(config := ctx.config.(unacceptableExtensions := unacceptable));
    var rs, qs := CheckRules(ctx, a), CheckRules(ctx', a);
    assert forall i :: 0 <= i < |rs| ==> Stricter(qs[i], rs[i]) by {
      forall i | 0 <= i < |rs| ensures Stricter(qs[i], rs[i]) {
        if i == 1 {
          assert Stricter(qs[1], rs[1]);
        }
      }
    }
    StricterRulesGrantLess(rs, qs, Flags(true, true), Flags(true, true));
  }

  // ---------------------------------------------------------------------
  // The object the client constructs.

  /** The evaluated suitability of one attachment for viewing and saving. */
  class AttachmentInfo {
    const name: string
    const contentType: string
    const size: int
    const id: int
    const allowView: bool
    const allowSave: bool

    /** The inputs the flags were computed from. */
    ghost const context: Context
    ghost const attachment: Attachment

    /** The copied fields and both flags are those the policy gives for the recorded inputs. */
    ghost predicate Valid()
    {
      name == attachment.fileName && contentType == ContentTypeOf(context, attachment)
      && size == attachment.size && id == attachment.id
      && Flags(allowView, allowSave) == Evaluate(context, attachment)
    }

    /** Runs the five rules in order on two local flags seeded true, then stores them. */
    constructor (ctx: Context, att: Attachment)
      ensures Valid() && context == ctx && attachment == att
      ensures allowView <==> ViewAllowed(ctx, att)
      ensures allowSave <==> SaveAllowed(ctx, att)
    {
      var mContentType := ctx.helpers.inferMimeType(att.fileName, att.mimeType);
      var mName := att.fileName;
      size := att.size;
      contentType := mContentType;
      name := mName;
      id := att.id;
      context := ctx;
      attachment := att;
      var cfg, helpers := ctx.config, ctx.helpers;
      var canView := true;
      var canSave := true;

      // MIME allow-list and deny-list
      if !helpers.mimeTypeMatches(mContentType, cfg.acceptableViewTypes)
         || helpers.mimeTypeMatches(mContentType, cfg.unacceptableViewTypes)
      {
        canView := false;
      }

      // unacceptable filename extension
      var extension := helpers.getFilenameExtension(mName);
      if !IsEmpty(extension) && helpers.arrayContains(cfg.unacceptableExtensions, extension.value) {
        canView := false;
        canSave := false;
      }

      // installable filename extension, gated by the sideload setting
      extension := helpers.getFilenameExtension(mName);
      if !IsEmpty(extension) && helpers.arrayContains(cfg.installableExtensions, extension.value) {
        var sideloadEnabled := ctx.device.sideloadSetting.GetOr(0);
        canView := false;
        canSave := canSave && sideloadEnabled == 1;
      }

      // size limit, lifted on WiFi
      if att.size > cfg.maxDownloadSize {
        var network := ctx.device.activeNetwork;
        if network.None? || network.value.netType != TypeWifi {
          canView := false;
          canSave := false;
        }
      }

      // some activity must be able to view the attachment
      var activityCount := ctx.device.viewHandlers(att.id);
      if activityCount == 0 {
        canView := false;
        canSave := false;
      }

      allowView := canView;
      allowSave := canSave;
      EvaluateClosedForm(ctx, att);
    }

    /** Eligible for download: viewable or savable, which holds exactly when the closed form says so. */
    function EligibleForDownload(): (r: bool)
      requires Valid()
      ensures r <==> allowView || allowSave
      ensures r <==> Eligible(context, attachment)
    {
      EligibleClosedForm(context, attachment);
      allowView || allowSave
    }
  }
}
