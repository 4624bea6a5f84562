/**
 * backend/notifications.py: which messages the notification service sends,
 * on which channels, in which language, and how the bulk sender tallies the
 * outcome. The HTTP calls to the SMS/WhatsApp and push gateways are the
 * parameter `accepted`, which says whether the gateway accepts a dispatch;
 * message texts are kept as the template chosen plus its arguments.
 */
module Notifications {
  import opened Common

  datatype Language = English | Hindi | Tamil

  datatype AlertKind = HighRisk | WeatherAlert | YieldUpdate

  /** A message body: a template filled with its arguments in placeholder order, or caller-supplied text. */
  datatype Message =
    | Templated(kind: AlertKind, language: Language, arguments: seq<string>)
    | Plain(text: string)

  /** A push title: the alert's title in one language, or the fixed bulk title. */
  datatype Title = AlertTitle(kind: AlertKind, language: Language) | CropAdvisory

  /** What is handed to a gateway. */
  datatype Dispatch =
    | Sms(sender: string, recipient: string, body: Message)
    | WhatsApp(sender: string, recipient: string, body: Message)
    | Push(token: string, title: Title, body: Message)

  datatype Failure = TwilioNotConfigured | FirebaseNotConfigured | Rejected

  /** The `{'success': ...}` dictionary a send returns. */
  datatype Delivery = Delivered | Failed(reason: Failure)

  datatype Channel = SmsChannel | WhatsAppChannel | PushChannel

  datatype Config = Config(accountSid: string, authToken: string, phoneNumber: string, serverKey: string)

  /** The user dictionary; an absent key is None. */
  datatype User = User(id: Option<int>, phone: Option<string>, fcmToken: Option<string>, region: Option<string>)

  datatype CropData = CropData(
    cropType: Option<string>, region: Option<string>, riskLevel: Option<string>, predictedYield: Option<string>)

  datatype WeatherData = WeatherData(description: Option<string>, temperature: Option<string>, rainfall: Option<string>)

  /** `d.get(key, 'Unknown')`. */
  function OrUnknown(value: Option<string>): string
  {
    match value
    case Some(s) => s
    case None => "Unknown"
  }

  // ----- Language selection -----

  /** `templates[kind].get(language, templates[kind]['en'])`: Hindi and Tamil, English otherwise. */
  function TemplateLanguage(language: string): (l: Language)
    ensures l == Hindi <==> language == "hi"
    ensures l == Tamil <==> language == "ta"
  {
    if language == "hi" then Hindi else if language == "ta" then Tamil else English
  }

  /** The push title's conditional: 'en' English, 'hi' Hindi, anything else Tamil. */
  function TitleLanguage(language: string): (l: Language)
    ensures l == English <==> language == "en"
    ensures l == Hindi <==> language == "hi"
  {
    if language == "en" then English else if language == "hi" then Hindi else Tamil
  }

  /**
   * Body and title agree exactly on the three known codes; for any other
   * code the body falls back to English while the title is Tamil.
   */
  lemma LanguageSelection(language: string)
    ensures TemplateLanguage(language) == TitleLanguage(language) <==> language in ["en", "hi", "ta"]
    ensures language !in ["en", "hi", "ta"] ==> TemplateLanguage(language) == English && TitleLanguage(language) == Tamil
    ensures language == "en" ==> TemplateLanguage(language) == English && TitleLanguage(language) == English
    ensures language == "hi" ==> TemplateLanguage(language) == Hindi && TitleLanguage(language) == Hindi
    ensures language == "ta" ==> TemplateLanguage(language) == Tamil && TitleLanguage(language) == Tamil
  {
    if language !in ["en", "hi", "ta"] {
      assert language != "en" && language != "hi" && language != "ta";
    }
  }

  // ----- Addresses and credentials -----

  /** `s.replace('+', '')`. */
  function StripPlus(s: string): (r: string)
    ensures '+' !in r
    ensures forall c :: c in r <==> c in s && c != '+'
    ensures forall c :: c != '+' ==> multiset(r)[c] == multiset(s)[c]
    ensures |r| <= |s|
  {
    if s == [] then []
    else
      assert s == [s[0]] + s[1..];
      if s[0] == '+' then StripPlus(s[1..])
      else [s[0]] + StripPlus(s[1..])
  }

  /** Stripping works piecewise, so the kept characters stay in their order. */
  lemma {:induction false} StripPlusAppend(a: string, b: string)
    ensures StripPlus(a + b) == StripPlus(a) + StripPlus(b)
    decreases |a|
  {
    if a == [] {
      assert a + b == b;
    } else {
      assert (a + b)[0] == a[0] && (a + b)[1..] == a[1..] + b;
      StripPlusAppend(a[1..], b);
    }
  }

  /** Removing '+' from a text without one changes nothing, so stripping twice is stripping once. */
  lemma {:induction false} StripPlusIdentity(s: string)
    requires '+' !in s
    ensures StripPlus(s) == s
  {
    if s != [] {
      assert s == [s[0]] + s[1..];
      StripPlusIdentity(s[1..]);
    }
  }

  lemma StripPlusIdempotent(s: string)
    ensures StripPlus(StripPlus(s)) == StripPlus(s)
  {
    StripPlusIdentity(StripPlus(s));
  }

  /** `f"whatsapp:{number.replace('+', '')}"`. */
  function WhatsAppAddress(number: string): (r: string)
    ensures "whatsapp:" <= r
    ensures r[9..] == StripPlus(number)
    ensures forall i :: 9 <= i < |r| ==> r[i] != '+'
  {
    var stripped := StripPlus(number);
    var r := "whatsapp:" + stripped;
    assert forall i :: 9 <= i < |r| ==> r[i] == stripped[i - 9];
    r
  }

  /** `all([sid, token, number])`. */
  predicate TwilioConfigured(c: Config)
  {
    c.accountSid != "" && c.authToken != "" && c.phoneNumber != ""
  }

  /** Python truthiness of `user.get('phone')` and `user.get('fcm_token')`. */
  predicate HasPhone(u: User)
  {
    u.phone.Some? && u.phone.value != ""
  }

  predicate HasToken(u: User)
  {
    u.fcmToken.Some? && u.fcmToken.value != ""
  }

  // ----- Sends -----

  /** `send_sms`. */
  function SendSms(c: Config, phone: string, body: Message, accepted: Dispatch -> bool): (d: Delivery)
    ensures d == Delivered <==> TwilioConfigured(c) && accepted(Sms(c.phoneNumber, phone, body))
    ensures !TwilioConfigured(c) ==> d == Failed(TwilioNotConfigured)
  {
    if !TwilioConfigured(c) then Failed(TwilioNotConfigured)
    else if accepted(Sms(c.phoneNumber, phone, body)) then Delivered
    else Failed(Rejected)
  }

  /** `send_whatsapp`: both ends addressed as `whatsapp:` numbers without '+'. */
  function SendWhatsApp(c: Config, phone: string, body: Message, accepted: Dispatch -> bool): (d: Delivery)
    ensures d == Delivered <==>
      TwilioConfigured(c) && accepted(WhatsApp(WhatsAppAddress(c.phoneNumber), WhatsAppAddress(phone), body))
    ensures !TwilioConfigured(c) ==> d == Failed(TwilioNotConfigured)
  {
    if !TwilioConfigured(c) then Failed(TwilioNotConfigured)
    else if accepted(WhatsApp(WhatsAppAddress(c.phoneNumber), WhatsAppAddress(phone), body)) then Delivered
    else Failed(Rejected)
  }

  /** `send_push_notification`. */
  function SendPush(c: Config, token: string, title: Title, body: Message, accepted: Dispatch -> bool): (d: Delivery)
    ensures d == Delivered <==> c.serverKey != "" && accepted(Push(token, title, body))
    ensures c.serverKey == "" ==> d == Failed(FirebaseNotConfigured)
  {
    if c.serverKey == "" then Failed(FirebaseNotConfigured)
    else if accepted(Push(token, title, body)) then Delivered
    else Failed(Rejected)
  }

  // ----- Alerts -----

  function HighRiskMessage(crop: CropData, language: string): Message
  {
    Templated(HighRisk, TemplateLanguage(language),
      [OrUnknown(crop.cropType), OrUnknown(crop.region), OrUnknown(crop.riskLevel), OrUnknown(crop.predictedYield)])
  }

  /** The weather alert names the user's region, not the weather's. */
  function WeatherMessage(user: User, weather: WeatherData, language: string): Message
  {
    Templated(WeatherAlert, TemplateLanguage(language),
      [OrUnknown(weather.description), OrUnknown(user.region), OrUnknown(weather.temperature),
       OrUnknown(weather.rainfall)])
  }

  function YieldMessage(crop: CropData, language: string): Message
  {
    Templated(YieldUpdate, TemplateLanguage(language),
      [OrUnknown(crop.cropType), OrUnknown(crop.predictedYield), OrUnknown(crop.riskLevel)])
  }

  /** SMS if the user has a phone, push if they have a token. */
  function SmsAndPush(c: Config, user: User, body: Message, title: Title, accepted: Dispatch -> bool)
    : (r: map<Channel, Delivery>)
    ensures SmsChannel in r <==> HasPhone(user)
    ensures PushChannel in r <==> HasToken(user)
    ensures WhatsAppChannel !in r
    ensures HasPhone(user) ==> r[SmsChannel] == SendSms(c, user.phone.value, body, accepted)
    ensures HasToken(user) ==> r[PushChannel] == SendPush(c, user.fcmToken.value, title, body, accepted)
  {
    var sms: map<Channel, Delivery> :=
      if HasPhone(user) then map[SmsChannel := SendSms(c, user.phone.value, body, accepted)] else map[];
    if HasToken(user) then sms[PushChannel := SendPush(c, user.fcmToken.value, title, body, accepted)] else sms
  }

  /** `send_high_risk_alert`: SMS and WhatsApp for a phone, push for a token. */
  function SendHighRiskAlert(c: Config, user: User, crop: CropData, language: string, accepted: Dispatch -> bool)
    : (r: map<Channel, Delivery>)
    ensures SmsChannel in r <==> HasPhone(user)
    ensures WhatsAppChannel in r <==> HasPhone(user)
    ensures PushChannel in r <==> HasToken(user)
    ensures HasPhone(user) ==>
      && r[SmsChannel] == SendSms(c, user.phone.value, HighRiskMessage(crop, language), accepted)
      && r[WhatsAppChannel] == SendWhatsApp(c, user.phone.value, HighRiskMessage(crop, language), accepted)
    ensures HasToken(user) ==>
      r[PushChannel] == SendPush(c, user.fcmToken.value, AlertTitle(HighRisk, TitleLanguage(language)),
        HighRiskMessage(crop, language), accepted)
  {
    var body := HighRiskMessage(crop, language);
    var sms: map<Channel, Delivery> :=
      if HasPhone(user) then map[SmsChannel := SendSms(c, user.phone.value, body, accepted)] else map[];
    var whatsApp := if HasPhone(user) then sms[WhatsAppChannel := SendWhatsApp(c, user.phone.value, body, accepted)]
      else sms;
    if HasToken(user) then
      whatsApp[PushChannel := SendPush(c, user.fcmToken.value, AlertTitle(HighRisk, TitleLanguage(language)), body, accepted)]
    else whatsApp
  }

  /** `send_weather_alert`: SMS for a phone, push for a token, never WhatsApp. */
  function SendWeatherAlert(c: Config, user: User, weather: WeatherData, language: string, accepted: Dispatch -> bool)
    : (r: map<Channel, Delivery>)
    ensures SmsChannel in r <==> HasPhone(user)
    ensures PushChannel in r <==> HasToken(user)
    ensures WhatsAppChannel !in r
    ensures HasPhone(user) ==>
      r[SmsChannel] == SendSms(c, user.phone.value, WeatherMessage(user, weather, language), accepted)
    ensures HasToken(user) ==>
      r[PushChannel] == SendPush(c, user.fcmToken.value, AlertTitle(WeatherAlert, TitleLanguage(language)),
        WeatherMessage(user, weather, language), accepted)
  {
    SmsAndPush(c, user, WeatherMessage(user, weather, language), AlertTitle(WeatherAlert, TitleLanguage(language)),
      accepted)
  }

  /** `send_yield_update`: SMS for a phone, push for a token, never WhatsApp. */
  function SendYieldUpdate(c: Config, user: User, crop: CropData, language: string, accepted: Dispatch -> bool)
    : (r: map<Channel, Delivery>)
    ensures SmsChannel in r <==> HasPhone(user)
    ensures PushChannel in r <==> HasToken(user)
    ensures WhatsAppChannel !in r
    ensures HasPhone(user) ==> r[SmsChannel] == SendSms(c, user.phone.value, YieldMessage(crop, language), accepted)
    ensures HasToken(user) ==>
      r[PushChannel] == SendPush(c, user.fcmToken.value, AlertTitle(YieldUpdate, TitleLanguage(language)),
        YieldMessage(crop, language), accepted)
  {
    SmsAndPush(c, user, YieldMessage(crop, language), AlertTitle(YieldUpdate, TitleLanguage(language)), accepted)
  }

  /**
   * For a language code outside the table, each alert goes out with the
   * English template while its push title is the Tamil one.
   */
  lemma UnknownLanguageAlerts(c: Config, user: User, crop: CropData, weather: WeatherData, language: string,
    accepted: Dispatch -> bool)
    requires language !in ["en", "hi", "ta"]
    requires HasToken(user)
    ensures SendHighRiskAlert(c, user, crop, language, accepted)[PushChannel] ==
      SendPush(c, user.fcmToken.value, AlertTitle(HighRisk, Tamil), Templated(HighRisk, English,
        [OrUnknown(crop.cropType), OrUnknown(crop.region), OrUnknown(crop.riskLevel), OrUnknown(crop.predictedYield)]),
        accepted)
    ensures SendWeatherAlert(c, user, weather, language, accepted)[PushChannel] ==
      SendPush(c, user.fcmToken.value, AlertTitle(WeatherAlert, Tamil), Templated(WeatherAlert, English,
        [OrUnknown(weather.description), OrUnknown(user.region), OrUnknown(weather.temperature),
         OrUnknown(weather.rainfall)]), accepted)
    ensures SendYieldUpdate(c, user, crop, language, accepted)[PushChannel] ==
      SendPush(c, user.fcmToken.value, AlertTitle(YieldUpdate, Tamil), Templated(YieldUpdate, English,
        [OrUnknown(crop.cropType), OrUnknown(crop.predictedYield), OrUnknown(crop.riskLevel)]), accepted)
  {
    LanguageSelection(language);
  }

  // ----- Bulk sending -----

  /** `user.get('id', 'unknown')`. */
  datatype DetailKey = Id(id: int) | Unknown

  function KeyOf(u: User): DetailKey
  {
    match u.id
    case Some(id) => Id(id)
    case None => Unknown
  }

  /** One user's sends in a bulk run: the message as SMS and as a push titled Crop Advisory. */
  function BulkUserResults(c: Config, u: User, message: string, accepted: Dispatch -> bool): map<Channel, Delivery>
  {
    SmsAndPush(c, u, Plain(message), CropAdvisory, accepted)
  }

  /** Number of sends attempted for a user: one per phone, one per token. */
  function UserAttempts(u: User): nat
  {
    (if HasPhone(u) then 1 else 0) + (if HasToken(u) then 1 else 0)
  }

  function UserSuccesses(c: Config, u: User, message: string, accepted: Dispatch -> bool): nat
  {
    var r := BulkUserResults(c, u, message, accepted);
    (if SmsChannel in r && r[SmsChannel] == Delivered then 1 else 0)
      + (if PushChannel in r && r[PushChannel] == Delivered then 1 else 0)
  }

  function Attempts(users: seq<User>): nat
  {
    if users == [] then 0 else Attempts(users[..|users| - 1]) + UserAttempts(users[|users| - 1])
  }

  function Successes(c: Config, users: seq<User>, message: string, accepted: Dispatch -> bool): (n: nat)
    ensures n <= Attempts(users)
  {
    if users == [] then 0
    else
      var last := users[|users| - 1];
      Successes(c, users[..|users| - 1], message, accepted) + UserSuccesses(c, last, message, accepted)
  }

  /** The details map: each user's results written under their key, later users overwriting earlier ones. */
  function Details(c: Config, users: seq<User>, message: string, accepted: Dispatch -> bool)
    : map<DetailKey, map<Channel, Delivery>>
  {
    if users == [] then map[]
    else
      var last := users[|users| - 1];
      Details(c, users[..|users| - 1], message, accepted)[KeyOf(last) := BulkUserResults(c, last, message, accepted)]
  }

  /** Every user has an entry under their key, and there is no other entry. */
  lemma {:induction false} DetailsKeys(c: Config, users: seq<User>, message: string, accepted: Dispatch -> bool)
    ensures forall k :: k in Details(c, users, message, accepted) <==> exists j :: 0 <= j < |users| && KeyOf(users[j]) == k
  {
    if users != [] {
      var n := |users| - 1;
      var prefix := users[..n];
      DetailsKeys(c, prefix, message, accepted);
      forall k ensures k in Details(c, users, message, accepted) <==>
        exists j :: 0 <= j < |users| && KeyOf(users[j]) == k
      {
        if k in Details(c, prefix, message, accepted) {
          var j :| 0 <= j < |prefix| && KeyOf(prefix[j]) == k;
          assert KeyOf(users[j]) == k;
        }
        if exists j :: 0 <= j < |users| && KeyOf(users[j]) == k {
          var j :| 0 <= j < |users| && KeyOf(users[j]) == k;
          if j < n {
            assert KeyOf(prefix[j]) == k;
          }
        }
      }
    }
  }

  /** Each entry holds the results of the last user with that key. */
  lemma {:induction false} DetailsLastWriterWins(
    c: Config, users: seq<User>, message: string, accepted: Dispatch -> bool, j: int)
    requires 0 <= j < |users|
    requires forall j' :: j < j' < |users| ==> KeyOf(users[j']) != KeyOf(users[j])
    ensures KeyOf(users[j]) in Details(c, users, message, accepted)
    ensures Details(c, users, message, accepted)[KeyOf(users[j])] == BulkUserResults(c, users[j], message, accepted)
    decreases |users|
  {
    var n := |users| - 1;
    if j < n {
      var prefix := users[..n];
      assert KeyOf(users[n]) != KeyOf(users[j]);
      assert prefix[j] == users[j];
      forall j' | j < j' < |prefix| ensures KeyOf(prefix[j']) != KeyOf(prefix[j]) {
        assert prefix[j'] == users[j'];
      }
      DetailsLastWriterWins(c, prefix, message, accepted, j);
    }
  }

  /** Users without an id share one entry: two of them leave a single `unknown` key. */
  lemma IdLessUsersShareEntry(c: Config, a: User, b: User, message: string, accepted: Dispatch -> bool)
    requires a.id.None? && b.id.None?
    ensures Details(c, [a, b], message, accepted) == map[Unknown := BulkUserResults(c, b, message, accepted)]
  {
    assert [a, b][..1] == [a];
    assert [a][..0] == [];
    var first := map[Unknown := BulkUserResults(c, a, message, accepted)];
    assert Details(c, [a], message, accepted) == first;
    assert Details(c, [a, b], message, accepted) == first[Unknown := BulkUserResults(c, b, message, accepted)];
  }

  datatype BulkResult = BulkResult(
    totalUsers: nat, successful: nat, failed: nat, details: map<DetailKey, map<Channel, Delivery>>)

  /**
   * `send_bulk_notifications`: one SMS per phone and one push per token, each
   * counted as successful or failed, so the two counts add up to the sends
   * attempted.
   */
  method SendBulkNotifications(c: Config, users: seq<User>, message: string, accepted: Dispatch -> bool)
    returns (r: BulkResult)
    ensures r.totalUsers == |users|
    ensures r.successful == Successes(c, users, message, accepted)
    ensures r.successful + r.failed == Attempts(users)
    ensures r.details == Details(c, users, message, accepted)
  {
    var successful: nat := 0;
    var failed: nat := 0;
    var details: map<DetailKey, map<Channel, Delivery>> := map[];
    for i := 0 to |users|
      invariant successful == Successes(c, users[..i], message, accepted)
      invariant successful + failed == Attempts(users[..i])
      invariant details == Details(c, users[..i], message, accepted)
    {
      var user := users[i];
      assert users[..i + 1][..i] == users[..i] && users[..i + 1][i] == user;
      var userResults: map<Channel, Delivery> := map[];
      if HasPhone(user) {
        var sms := SendSms(c, user.phone.value, Plain(message), accepted);
        userResults := userResults[SmsChannel := sms];
        if sms == Delivered {
          successful := successful + 1;
        } else {
          failed := failed + 1;
        }
      }
      if HasToken(user) {
        var push := SendPush(c, user.fcmToken.value, CropAdvisory, Plain(message), accepted);
        userResults := userResults[PushChannel := push];
        if push == Delivered {
          successful := successful + 1;
        } else {
          failed := failed + 1;
        }
      }
      assert userResults == BulkUserResults(c, user, message, accepted);
      details := details[KeyOf(user) := userResults];
    }
    assert users[..|users|] == users;
    r := BulkResult(|users|, successful, failed, details);
  }
}
