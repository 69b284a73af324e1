/**
 * The messenger settings sent to the widget: the welcome/away/thank texts
 * for the integration's language, and the ids of its attached apps.
 */
module MessengerData {
  import opened Wrappers
  import opened WidgetTypes

  const DefaultLanguage := "en"

  datatype MessagesItem = MessagesItem(welcome: Option<string>, away: Option<string>, thank: Option<string>)

  /** The integration's messenger settings; `other` stands for the settings passed through untouched. */
  datatype MessengerSettings = MessengerSettings(messages: Option<map<string, MessagesItem>>, other: map<string, string>)

  datatype Integration = Integration(id: Id, languageCode: Option<string>, messengerData: Option<MessengerSettings>)

  /** An app's credentials: the integration it is attached to and its other fields by name. */
  datatype AppCredentials = AppCredentials(integrationId: Id, fields: map<string, string>)

  /** An app of the messenger; only an app with credentials can be attached to an integration. */
  datatype MessengerApp = MessengerApp(kind: string, credentials: Option<AppCredentials>)

  datatype MessengerView = MessengerView(
    settings: map<string, string>,
    messages: Option<MessagesItem>,
    knowledgeBaseTopicId: Option<string>,
    websiteAppData: Option<AppCredentials>,
    formCode: Option<string>)

  /** The language whose messages are sent: the integration's, or "en" when it has none. */
  function EffectiveLanguage(integration: Integration): (r: string)
    ensures Truthy(integration.languageCode) ==> r == integration.languageCode.value
    ensures !Truthy(integration.languageCode) ==> r == DefaultLanguage
    ensures r != ""
  {
    if Truthy(integration.languageCode) then integration.languageCode.value else DefaultLanguage
  }

  /** The messages item stored under the effective language, if the settings have one. */
  function MessagesByLanguage(integration: Integration): (r: Option<MessagesItem>)
    ensures r.Some? <==>
      integration.messengerData.Some? && integration.messengerData.value.messages.Some? &&
      EffectiveLanguage(integration) in integration.messengerData.value.messages.value
    ensures r.Some? ==> r.value == integration.messengerData.value.messages.value[EffectiveLanguage(integration)]
  {
    match integration.messengerData
    case None => None
    case Some(settings) =>
      match settings.messages
      case None => None
      case Some(byLanguage) =>
        var language := EffectiveLanguage(integration);
        if language in byLanguage then Some(byLanguage[language]) else None
  }

  /** Without a language code, the English messages are sent. */
  lemma MessagesDefaultToEnglish(integration: Integration, settings: MessengerSettings, byLanguage: map<string, MessagesItem>)
    requires !Truthy(integration.languageCode)
    requires integration.messengerData == Some(settings) && settings.messages == Some(byLanguage)
    ensures "en" in byLanguage ==> MessagesByLanguage(integration) == Some(byLanguage["en"])
    ensures "en" !in byLanguage ==> MessagesByLanguage(integration) == None
  {
  }

  /** The app query: an app of `kind` whose credentials name the integration. */
  predicate AttachedTo(app: MessengerApp, kind: string, integrationId: Id)
  {
    app.kind == kind && app.credentials.Some? && app.credentials.value.integrationId == integrationId
  }

  /** Index `i` holds the first app, in stored order, that the query matches. */
  predicate IsFirstAttached(apps: seq<MessengerApp>, i: int, kind: string, integrationId: Id)
  {
    0 <= i < |apps| && AttachedTo(apps[i], kind, integrationId) &&
    forall j :: 0 <= j < i ==> !AttachedTo(apps[j], kind, integrationId)
  }

  /** A field of a credentials map, absent when the map lacks it. */
  function Field(fields: map<string, string>, name: string): Option<string>
  {
    if name in fields then Some(fields[name]) else None
  }

  /** The first app of the given kind attached to the integration. */
  function FindApp(apps: seq<MessengerApp>, kind: string, integrationId: Id): (r: Option<MessengerApp>)
    ensures forall i :: IsFirstAttached(apps, i, kind, integrationId) ==> r == Some(apps[i])
    ensures r.None? <==> forall i :: 0 <= i < |apps| ==> !AttachedTo(apps[i], kind, integrationId)
    ensures r.Some? ==> AttachedTo(r.value, kind, integrationId)
  {
    if |apps| == 0 then None
    else if AttachedTo(apps[0], kind, integrationId) then Some(apps[0])
    else
      var rest := FindApp(apps[1..], kind, integrationId);
      assert forall i :: IsFirstAttached(apps, i, kind, integrationId) ==> IsFirstAttached(apps[1..], i - 1, kind, integrationId);
      rest
  }

  /** A credential field of the app found, absent when no app is found or its credentials lack it. */
  function Credential(app: Option<MessengerApp>, field: string): Option<string>
  {
    if app.Some? && app.value.credentials.Some? then Field(app.value.credentials.value.fields, field) else None
  }

  /** The messenger data assembled for an integration from its settings and attached apps. */
  function GetMessengerData(integration: Integration, apps: seq<MessengerApp>): (r: MessengerView)
    ensures r.messages == MessagesByLanguage(integration)
    ensures integration.messengerData.None? ==> r.settings == map[]
    ensures integration.messengerData.Some? ==> r.settings == integration.messengerData.value.other
    ensures forall i :: IsFirstAttached(apps, i, "knowledgebase", integration.id) ==>
      r.knowledgeBaseTopicId == Field(apps[i].credentials.value.fields, "topicId")
    ensures forall i :: IsFirstAttached(apps, i, "lead", integration.id) ==>
      r.formCode == Field(apps[i].credentials.value.fields, "formCode")
    ensures forall i :: IsFirstAttached(apps, i, "website", integration.id) ==>
      r.websiteAppData == apps[i].credentials
    ensures (forall i :: 0 <= i < |apps| ==> !AttachedTo(apps[i], "knowledgebase", integration.id)) ==> r.knowledgeBaseTopicId == None
    ensures (forall i :: 0 <= i < |apps| ==> !AttachedTo(apps[i], "lead", integration.id)) ==> r.formCode == None
    ensures (forall i :: 0 <= i < |apps| ==> !AttachedTo(apps[i], "website", integration.id)) ==> r.websiteAppData == None
  {
    var kbApp := FindApp(apps, "knowledgebase", integration.id);
    var leadApp := FindApp(apps, "lead", integration.id);
    var websiteApp := FindApp(apps, "website", integration.id);
    MessengerView(
      if integration.messengerData.Some? then integration.messengerData.value.other else map[],
      MessagesByLanguage(integration),
      Credential(kbApp, "topicId"),
      if websiteApp.Some? then websiteApp.value.credentials else None,
      Credential(leadApp, "formCode"))
  }

  /** The app query skips apps without credentials: the lead app with a form code is found after one without. */
  lemma AppsWithoutCredentialsAreSkipped(integration: Integration, fields: map<string, string>)
    requires fields == map["formCode" := "F"]
    ensures var apps := [MessengerApp("lead", None), MessengerApp("lead", Some(AppCredentials(integration.id, fields)))];
      GetMessengerData(integration, apps).formCode == Some("F")
  {
    var apps := [MessengerApp("lead", None), MessengerApp("lead", Some(AppCredentials(integration.id, fields)))];
    assert IsFirstAttached(apps, 1, "lead", integration.id);
  }
}
