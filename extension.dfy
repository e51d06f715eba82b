/**
 * The extension's entry point: the chat-message hooks, the startup
 * registrations and the shutdown. The calls it makes after initialisation
 * (loading the settings, adding hooks and menu items, posting status messages,
 * accepting or rejecting a message, starting and stopping scans) are recorded
 * as Effects, in the order they are made. Constructing the settings manager
 * and the scan runners is not recorded, nor is a menu item being clicked.
 */
module Extension {
  import opened Wrappers
  import opened Settings
  import opened Validators
  import opened Subsequences
  import ChatCommand

  /** The subscriber the extension registers its hooks and menu items under. */
  datatype Subscriber = Subscriber(id: string, name: string)

  const SubscriberName := "Release validator"

  /** The callbacks handed to `socket.addHook`. */
  datatype Handler = BundleFinished | ShareDirectoryAdded | OutgoingHubMessage | OutgoingPrivateMessage

  /** What a context-menu item does when clicked. */
  datatype MenuAction = ScanShareRoots | ScanShare

  datatype MenuItem = MenuItem(id: string, onClick: MenuAction)

  /** The host hooks the extension subscribes to, with the subsystem and hook id each is registered under. */
  datatype Hook = QueueBundleFinished | NewShareDirectoryValidation | HubOutgoingMessage | PrivateChatOutgoingMessage
  {
    function Subsystem(): string
    {
      match this
      case QueueBundleFinished => "queue"
      case NewShareDirectoryValidation => "share"
      case HubOutgoingMessage => "hubs"
      case PrivateChatOutgoingMessage => "private_chat"
    }

    function HookId(): string
    {
      match this
      case QueueBundleFinished => "queue_bundle_finished_hook"
      case NewShareDirectoryValidation => "new_share_directory_validation_hook"
      case HubOutgoingMessage => "hub_outgoing_message_hook"
      case PrivateChatOutgoingMessage => "private_chat_outgoing_message_hook"
    }
  }

  /** The two context-menu groups, with the menu each is added to and the item it holds. */
  datatype MenuGroup = ShareRootGroup | ExtensionGroup
  {
    function MenuType(): string
    {
      match this
      case ShareRootGroup => "share_root"
      case ExtensionGroup => "extension"
    }

    function Items(): seq<MenuItem>
    {
      match this
      case ShareRootGroup => [MenuItem("scan_missing_extra", ScanShareRoots)]
      case ExtensionGroup => [MenuItem("scan_missing_extra", ScanShare)]
    }
  }

  /** The body of a status-message post. */
  datatype StatusMessage = StatusMessage(hubUrls: Option<seq<string>>, text: string, severity: string)

  datatype Effect =
    | LoadSettings                                                    // settings.load()
    | AddHook(hook: Hook, handler: Handler, subscriber: Subscriber)
    | AddMenuItems(group: MenuGroup, subscriber: Subscriber)
    | Post(path: string, message: StatusMessage)                      // socket.post
    | Accept                                                          // the hook's accept()
    | Reject                                                          // the hook's reject()
    | RunScanShare                                                    // runners.scanShare()
    | StopRunners                                                     // runners.stop()

  datatype HubMessage = HubMessage(text: string, hubUrl: string)
  datatype PrivateMessage = PrivateMessage(text: string, userCid: string)

  const HubStatusPath := "hubs/status_message"

  /** The status-message endpoint of the private chat with the user whose CID is `cid`. */
  function PrivateStatusPath(cid: string): (path: string)
    ensures "private_chat/" <= path
    ensures |path| == |"private_chat/"| + |cid| + |"/status_message"|
    ensures path[|"private_chat/"|..|"private_chat/"| + |cid|] == cid
    ensures path[|"private_chat/"| + |cid|..] == "/status_message"
  {
    "private_chat/" + cid + "/status_message"
  }

  /** `if (statusMessage)`: the recogniser's result as JavaScript truthiness sees it. */
  predicate StatusTruthy(status: Option<string>)
    ensures StatusTruthy(status) <==> status.Some? && Truthy(Str(status.value))
  {
    status.Some? && status.value != ""
  }

  /** The help text is a non-empty string, so the handlers post it whenever the recogniser returns it. */
  lemma HelpTextTruthy()
    ensures StatusTruthy(Some(ChatCommand.HelpText))
  {
  }

  /** The calls one outgoing message causes: the recogniser's scan request, the optional status post, then accept(). */
  function MessageEffects(text: string, path: string, hubUrls: Option<seq<string>>): (r: seq<Effect>)
    ensures |r| > 0 && r[|r| - 1] == Accept && multiset(r)[Accept] == 1
    ensures Reject !in r
    ensures RunScanShare in r <==> ChatCommand.ScanCommand <= text
    ensures (exists e :: e in r && e.Post?) <==> ChatCommand.HelpCommand <= text
    ensures forall e :: e in r && e.Post? ==>
              e == Post(path, StatusMessage(hubUrls, ChatCommand.HelpText, "info"))
    ensures r == (if ChatCommand.ScanCommand <= text then [RunScanShare] else [])
               + (if ChatCommand.HelpCommand <= text
                  then [Post(path, StatusMessage(hubUrls, ChatCommand.HelpText, "info"))] else [])
               + [Accept]
  {
    // The recogniser never both replies and requests a scan, so at most one call precedes accept().
    var outcome := ChatCommand.Recognise(text);
    if outcome.scanRequested then [RunScanShare, Accept]
    else if StatusTruthy(outcome.reply) then
      var post := Post(path, StatusMessage(hubUrls, outcome.reply.value, "info"));
      assert post in [post, Accept];
      [post, Accept]
    else
      HelpTextTruthy();
      [Accept]
  }

  /** `onOutgoingHubMessage`: the status goes to the message's own hub. */
  function HubMessageEffects(m: HubMessage): (r: seq<Effect>)
    ensures |r| > 0 && r[|r| - 1] == Accept && multiset(r)[Accept] == 1
    ensures Reject !in r
    ensures RunScanShare in r <==> ChatCommand.ScanCommand <= m.text
    ensures (exists e :: e in r && e.Post?) <==> ChatCommand.HelpCommand <= m.text
    ensures forall e :: e in r && e.Post? ==>
              e == Post(HubStatusPath, StatusMessage(Some([m.hubUrl]), ChatCommand.HelpText, "info"))
    ensures r == (if ChatCommand.ScanCommand <= m.text then [RunScanShare] else [])
               + (if ChatCommand.HelpCommand <= m.text
                  then [Post(HubStatusPath, StatusMessage(Some([m.hubUrl]), ChatCommand.HelpText, "info"))] else [])
               + [Accept]
  {
    MessageEffects(m.text, HubStatusPath, Some([m.hubUrl]))
  }

  /** `onOutgoingPrivateMessage`: the status goes to the private chat with the message's user. */
  function PrivateMessageEffects(m: PrivateMessage): (r: seq<Effect>)
    ensures |r| > 0 && r[|r| - 1] == Accept && multiset(r)[Accept] == 1
    ensures Reject !in r
    ensures RunScanShare in r <==> ChatCommand.ScanCommand <= m.text
    ensures (exists e :: e in r && e.Post?) <==> ChatCommand.HelpCommand <= m.text
    ensures forall e :: e in r && e.Post? ==>
              e == Post(PrivateStatusPath(m.userCid), StatusMessage(None, ChatCommand.HelpText, "info"))
    ensures r == (if ChatCommand.ScanCommand <= m.text then [RunScanShare] else [])
               + (if ChatCommand.HelpCommand <= m.text
                  then [Post(PrivateStatusPath(m.userCid), StatusMessage(None, ChatCommand.HelpText, "info"))] else [])
               + [Accept]
  {
    MessageEffects(m.text, PrivateStatusPath(m.userCid), None)
  }

  /** HubMessageEffects step by step, as the handler makes the calls. */
  lemma HubMessageEffectsSteps(m: HubMessage)
    ensures HubMessageEffects(m)
         == (if ChatCommand.Recognise(m.text).scanRequested then [RunScanShare] else [])
          + (if StatusTruthy(ChatCommand.Recognise(m.text).reply)
             then [Post(HubStatusPath, StatusMessage(Some([m.hubUrl]), ChatCommand.Recognise(m.text).reply.value, "info"))]
             else [])
          + [Accept]
  {
  }

  /** PrivateMessageEffects step by step, as the handler makes the calls. */
  lemma PrivateMessageEffectsSteps(m: PrivateMessage)
    ensures PrivateMessageEffects(m)
         == (if ChatCommand.Recognise(m.text).scanRequested then [RunScanShare] else [])
          + (if StatusTruthy(ChatCommand.Recognise(m.text).reply)
             then [Post(PrivateStatusPath(m.userCid), StatusMessage(None, ChatCommand.Recognise(m.text).reply.value, "info"))]
             else [])
          + [Accept]
  {
  }

  // The registrations startup can make.
  function BundleHook(sub: Subscriber): Effect { AddHook(QueueBundleFinished, BundleFinished, sub) }
  function ShareDirectoryHook(sub: Subscriber): Effect { AddHook(NewShareDirectoryValidation, ShareDirectoryAdded, sub) }
  function HubMessageHook(sub: Subscriber): Effect { AddHook(HubOutgoingMessage, OutgoingHubMessage, sub) }
  function PrivateMessageHook(sub: Subscriber): Effect { AddHook(PrivateChatOutgoingMessage, OutgoingPrivateMessage, sub) }
  function ShareRootMenu(sub: Subscriber): Effect { AddMenuItems(ShareRootGroup, sub) }
  function ExtensionMenu(sub: Subscriber): Effect { AddMenuItems(ExtensionGroup, sub) }

  /** The hooks `onStart` adds, in order: two that depend on settings, then the two message hooks. */
  function HookRegistrations(store: Store, apiFeatureLevel: int, sub: Subscriber): (r: seq<Effect>)
    ensures forall e :: e in r ==> e.AddHook?
    ensures BundleHook(sub) in r <==> Truthy(GetValue(store, ScanFinishedBundlesKey))
    ensures ShareDirectoryHook(sub) in r <==> Truthy(GetValue(store, ScanNewShareDirectoriesKey)) && apiFeatureLevel >= 4
    ensures HubMessageHook(sub) in r && PrivateMessageHook(sub) in r
    ensures |r| == 2 + (if Truthy(GetValue(store, ScanFinishedBundlesKey)) then 1 else 0)
                     + (if Truthy(GetValue(store, ScanNewShareDirectoriesKey)) && apiFeatureLevel >= 4 then 1 else 0)
    ensures r[|r| - 2] == HubMessageHook(sub) && r[|r| - 1] == PrivateMessageHook(sub)
  {
    (if Truthy(GetValue(store, ScanFinishedBundlesKey)) then [BundleHook(sub)] else [])
    + (if Truthy(GetValue(store, ScanNewShareDirectoriesKey)) && apiFeatureLevel >= 4 then [ShareDirectoryHook(sub)] else [])
    + [HubMessageHook(sub), PrivateMessageHook(sub)]
  }

  /** The context-menu groups `onStart` adds after the hooks. */
  function MenuRegistrations(apiFeatureLevel: int, sub: Subscriber): (r: seq<Effect>)
    ensures forall e :: e in r ==> e.AddMenuItems?
    ensures ShareRootMenu(sub) in r <==> apiFeatureLevel >= 4
    ensures ExtensionMenu(sub) in r <==> apiFeatureLevel >= 4
    ensures |r| == if apiFeatureLevel >= 4 then 2 else 0
    ensures r != [] ==> r[0] == ShareRootMenu(sub)
  {
    if apiFeatureLevel >= 4 then [ShareRootMenu(sub), ExtensionMenu(sub)] else []
  }

  /** The registrations `onStart` makes once the settings are loaded, in order. */
  function StartRegistrations(store: Store, apiFeatureLevel: int, sub: Subscriber): (r: seq<Effect>)
    ensures BundleHook(sub) in r <==> Truthy(GetValue(store, ScanFinishedBundlesKey))
    ensures ShareDirectoryHook(sub) in r <==> Truthy(GetValue(store, ScanNewShareDirectoriesKey)) && apiFeatureLevel >= 4
    ensures HubMessageHook(sub) in r && PrivateMessageHook(sub) in r
    ensures ShareRootMenu(sub) in r <==> apiFeatureLevel >= 4
    ensures ExtensionMenu(sub) in r <==> apiFeatureLevel >= 4
    ensures forall e :: e in r ==> e in [BundleHook(sub), ShareDirectoryHook(sub), HubMessageHook(sub),
                                          PrivateMessageHook(sub), ShareRootMenu(sub), ExtensionMenu(sub)]
    ensures |r| == 2 + (if Truthy(GetValue(store, ScanFinishedBundlesKey)) then 1 else 0)
                     + (if Truthy(GetValue(store, ScanNewShareDirectoriesKey)) && apiFeatureLevel >= 4 then 1 else 0)
                     + (if apiFeatureLevel >= 4 then 2 else 0)
  {
    HookRegistrations(store, apiFeatureLevel, sub) + MenuRegistrations(apiFeatureLevel, sub)
  }

  /** Every hook is registered before any context-menu item. */
  lemma StartRegistrationsOrder(store: Store, apiFeatureLevel: int, sub: Subscriber, i: int, j: int)
    requires 0 <= i < j < |StartRegistrations(store, apiFeatureLevel, sub)|
    requires StartRegistrations(store, apiFeatureLevel, sub)[i].AddMenuItems?
    ensures StartRegistrations(store, apiFeatureLevel, sub)[j].AddMenuItems?
  {
  }

  /** Every registration `onStart` can make, in the order the source makes them. */
  function AllRegistrations(sub: Subscriber): seq<Effect>
  {
    [BundleHook(sub), ShareDirectoryHook(sub), HubMessageHook(sub), PrivateMessageHook(sub),
     ShareRootMenu(sub), ExtensionMenu(sub)]
  }

  /**
   * The registrations follow the source's order: bundle hook, share-directory
   * hook, hub hook, private-chat hook, share-root menu, extension menu. With the
   * membership clauses of StartRegistrations this fixes the list completely.
   */
  lemma StartRegistrationsInOrder(store: Store, apiFeatureLevel: int, sub: Subscriber)
    ensures IsSubsequence(StartRegistrations(store, apiFeatureLevel, sub), AllRegistrations(sub))
  {
    var bundle := Truthy(GetValue(store, ScanFinishedBundlesKey));
    var share := Truthy(GetValue(store, ScanNewShareDirectoriesKey)) && apiFeatureLevel >= 4;
    OptionalChainOrder(bundle, share, apiFeatureLevel >= 4,
      BundleHook(sub), ShareDirectoryHook(sub), HubMessageHook(sub), PrivateMessageHook(sub),
      ShareRootMenu(sub), ExtensionMenu(sub));
  }

  /** The arguments of each `addHook` call: subsystem and hook id, and that the four hook ids differ. */
  lemma HookArguments()
    ensures QueueBundleFinished.Subsystem() == "queue" && QueueBundleFinished.HookId() == "queue_bundle_finished_hook"
    ensures NewShareDirectoryValidation.Subsystem() == "share"
         && NewShareDirectoryValidation.HookId() == "new_share_directory_validation_hook"
    ensures HubOutgoingMessage.Subsystem() == "hubs" && HubOutgoingMessage.HookId() == "hub_outgoing_message_hook"
    ensures PrivateChatOutgoingMessage.Subsystem() == "private_chat"
         && PrivateChatOutgoingMessage.HookId() == "private_chat_outgoing_message_hook"
    ensures forall h1: Hook, h2: Hook :: h1.HookId() == h2.HookId() ==> h1 == h2
  {
  }

  /** The arguments of each `addContextMenuItems` call: the menu and its one item, whose click runs the action. */
  lemma MenuArguments()
    ensures ShareRootGroup.MenuType() == "share_root"
         && ShareRootGroup.Items() == [MenuItem("scan_missing_extra", ScanShareRoots)]
    ensures ExtensionGroup.MenuType() == "extension"
         && ExtensionGroup.Items() == [MenuItem("scan_missing_extra", ScanShare)]
  {
  }

  /**
   * One instance of the extension: the validators it was built with, the
   * live settings store and the log of calls it has made.
   */
  class ReleaseValidator {
    const name: string
    const validators: seq<Validator>
    /** The definition list the settings manager was created with. */
    const definitions: seq<Option<SettingDefinition>>
    var settings: Store
    var effects: seq<Effect>

    /** The module's default export: creates the settings manager and the scan runners. */
    constructor (name: string, validators: seq<Validator>)
      ensures this.name == name && this.validators == validators
      ensures definitions == Definitions(validators)
      ensures settings == map[] && effects == []
    {
      this.name := name;
      this.validators := validators;
      this.definitions := Definitions(validators);
      this.settings := map[];
      this.effects := [];
    }

    /** The validator provider handed to the scan runners: the filter over the settings as they are at the call. */
    method ActiveValidators() returns (r: seq<Validator>)
      ensures forall v :: v in r <==> v in validators && ValidatorEnabled(settings, v)
      ensures IsSubsequence(r, validators)
      ensures r == EnabledValidators(validators, settings)
    {
      r := EnabledValidators(validators, settings);
      EnabledIsSubsequence(validators, settings);
    }

    /** `checkChatCommand`: returns the status text and starts a share scan for the scan command. */
    method CheckChatCommand(text: string) returns (status: Option<string>)
      modifies this
      ensures status == ChatCommand.Recognise(text).reply
      ensures settings == old(settings)
      ensures effects == old(effects) + (if ChatCommand.Recognise(text).scanRequested then [RunScanShare] else [])
    {
      status := None;
      if |text| == 0 || text[0] != '/' {
        return;
      }
      if ChatCommand.IndexOf(text, ChatCommand.HelpCommand) == 0 {
        status := Some(ChatCommand.HelpText);
        return;
      } else if ChatCommand.IndexOf(text, ChatCommand.ScanCommand) == 0 {
        effects := effects + [RunScanShare];
      }
    }

    /** `onOutgoingHubMessage`. */
    method OnOutgoingHubMessage(message: HubMessage)
      modifies this
      ensures settings == old(settings)
      ensures effects == old(effects) + HubMessageEffects(message)
    {
      ghost var before := effects;
      var status := CheckChatCommand(message.text);
      ghost var scan := effects[|before|..];
      assert effects == before + scan;
      var post := [];
      if StatusTruthy(status) {
        post := [Post(HubStatusPath, StatusMessage(Some([message.hubUrl]), status.value, "info"))];
      }
      effects := effects + post;
      effects := effects + [Accept];
      HubMessageEffectsSteps(message);
      assert effects == before + (scan + post + [Accept]);
    }

    /** `onOutgoingPrivateMessage`. */
    method OnOutgoingPrivateMessage(message: PrivateMessage)
      modifies this
      ensures settings == old(settings)
      ensures effects == old(effects) + PrivateMessageEffects(message)
    {
      ghost var before := effects;
      var status := CheckChatCommand(message.text);
      ghost var scan := effects[|before|..];
      assert effects == before + scan;
      var post := [];
      if StatusTruthy(status) {
        post := [Post(PrivateStatusPath(message.userCid), StatusMessage(None, status.value, "info"))];
      }
      effects := effects + post;
      effects := effects + [Accept];
      PrivateMessageEffectsSteps(message);
      assert effects == before + (scan + post + [Accept]);
    }

    /**
     * `extension.onStart`. `loaded` is what `settings.load()` reads back from the
     * configuration file, or None when loading fails: the awaited promise then
     * rejects and nothing after it runs.
     */
    method OnStart(loaded: Option<Store>, apiFeatureLevel: int)
      modifies this
      ensures loaded.None? ==> settings == old(settings) && effects == old(effects) + [LoadSettings]
      ensures loaded.Some? ==> settings == loaded.value
      ensures loaded.Some? ==>
                effects == old(effects) + [LoadSettings]
                         + StartRegistrations(loaded.value, apiFeatureLevel, Subscriber(name, SubscriberName))
    {
      effects := effects + [LoadSettings];
      if loaded.None? {
        return;
      }
      settings := loaded.value;
      var sub := Subscriber(name, SubscriberName);
      ghost var before := effects;
      var scanBundles := Truthy(GetValue(settings, ScanFinishedBundlesKey));
      var scanDirectories := Truthy(GetValue(settings, ScanNewShareDirectoriesKey));
      if scanBundles {
        effects := effects + [BundleHook(sub)];
      }
      if scanDirectories && apiFeatureLevel >= 4 {
        effects := effects + [ShareDirectoryHook(sub)];
      }
      effects := effects + [HubMessageHook(sub)];
      effects := effects + [PrivateMessageHook(sub)];
      ghost var hooks := HookRegistrations(settings, apiFeatureLevel, sub);
      assert hooks == (if scanBundles then [BundleHook(sub)] else [])
                    + (if scanDirectories && apiFeatureLevel >= 4 then [ShareDirectoryHook(sub)] else [])
                    + [HubMessageHook(sub), PrivateMessageHook(sub)];
      assert effects == before + hooks;
      if apiFeatureLevel >= 4 {
        effects := effects + [ShareRootMenu(sub)];
        effects := effects + [ExtensionMenu(sub)];
      }
      ghost var menus := MenuRegistrations(apiFeatureLevel, sub);
      assert menus == if apiFeatureLevel >= 4 then [ShareRootMenu(sub), ExtensionMenu(sub)] else [];
      assert effects == before + (hooks + menus);
      assert StartRegistrations(settings, apiFeatureLevel, sub) == hooks + menus;
    }

    /** `extension.onStop`: stops possible running scans. */
    method OnStop()
      modifies this
      ensures settings == old(settings)
      ensures effects == old(effects) + [StopRunners]
    {
      effects := effects + [StopRunners];
    }
  }
}
