/** The orchestrator's notification decisions: which email and SMS requests each authentication
    event produces, and the single payload an alert batch produces, published through an
    outbox standing in for the broker. */
module OrchestratorService {
  import opened Basics
  import opened Java
  import opened Json
  import opened AuthEvents
  import opened NotificationRequests

  /** A message body as the broker receives it. */
  datatype MessageBody =
    | NotificationBody(notification: Notification)
    | AlertBody(fields: map<string, Json>)

  datatype Message = Message(exchange: string, routingKey: string, body: MessageBody)

  /** The broker client. Sends on a routing key in `failing` throw and leave the outbox alone;
      every other send appends one message. */
  class RabbitTemplate {
    var outbox: seq<Message>
    var failing: set<string>

    constructor (failing: set<string>)
      ensures outbox == [] && this.failing == failing
    {
      outbox := [];
      this.failing := failing;
    }

    /** convertAndSend: the error message of the exception it throws, if any. */
    method ConvertAndSend(exchange: string, routingKey: string, body: MessageBody) returns (error: Option<string>)
      modifies this
      ensures failing == old(failing)
      ensures routingKey in failing ==> error.Some? && outbox == old(outbox)
      ensures routingKey !in failing ==> error.None? && outbox == old(outbox) + [Message(exchange, routingKey, body)]
    {
      if routingKey in failing {
        error := Some("AmqpException");
      } else {
        outbox := outbox + [Message(exchange, routingKey, body)];
        error := None;
      }
    }
  }

  datatype Channel = EmailChannel | SmsChannel

  /** One notification a handler publishes, and on which channel. */
  datatype Publication = Publication(channel: Channel, notification: Notification)

  /** The phone rule: an SMS goes out only to a non-null phone that is not blank after trim. */
  predicate SmsWanted(phone: Option<string>)
  {
    phone.Some? && !IsBlank(phone.value)
  }

  function WelcomeSms(username: Option<string>): string
  {
    "¡Bienvenido " + Str(username) + "! Tu cuenta ha sido creada exitosamente. ¡Gracias por registrarte!"
  }

  function LoginSms(ip: string, when: string): string
  {
    "Alerta: Nuevo acceso a tu cuenta desde " + ip + " el " + when
  }

  function PasswordChangedSms(when: string): string
  {
    "Tu contraseña ha sido cambiada exitosamente el " + when
  }

  /** The template data of the confirmation email: the username and the confirmation link. */
  function ConfirmationData(userId: Option<string>, username: Option<string>): map<string, Json>
  {
    map["username" := NullableString(username),
        "confirmationUrl" := JString("http://localhost:3500/confirm/" + Str(userId))]
  }

  /** The template data of the security-alert email. */
  function LoginAlertData(username: Option<string>, ip: string, timestamp: string): map<string, Json>
  {
    map["username" := NullableString(username), "ip" := JString(ip), "timestamp" := JString(timestamp)]
  }

  /** The template data of the password-reset email: the reset link. */
  function ResetData(token: Option<string>): map<string, Json>
  {
    map["resetUrl" := JString("http://localhost:3500/reset-password/" + Str(token))]
  }

  /** The template data of the password-changed email. */
  function PasswordChangedData(username: Option<string>, timestamp: string): map<string, Json>
  {
    map["username" := NullableString(username), "timestamp" := JString(timestamp)]
  }

  /** The SMS a handler adds after its email, when the phone rule allows it. */
  function SmsIfWanted(phone: Option<string>, notificationType: string, message: string): seq<Publication>
  {
    if SmsWanted(phone) then [Publication(SmsChannel, SmsValue(notificationType, phone, message))] else []
  }

  /** user.created: a confirmation email, then a welcome SMS. The getters run first, in source
      order, so a ClassCastException there publishes nothing. */
  function CreatedPlan(data: Option<map<string, Json>>): Result<seq<Publication>>
  {
    var userId :- StringEntry(data, "id");
    var username :- StringEntry(data, "username");
    var email :- StringEntry(data, "email");
    var phone :- StringEntry(data, "phone");
    Ok(CreatedPublications(userId, username, email, phone))
  }

  function CreatedPublications(userId: Option<string>, username: Option<string>, email: Option<string>, phone: Option<string>)
    : seq<Publication>
  {
    [Publication(EmailChannel, EmailValue("account.confirmation", email, "welcome", ConfirmationData(userId, username)))] +
    SmsIfWanted(phone, "account.created", WelcomeSms(username))
  }

  /** user.login: a security-alert email, then an SMS. A missing ip reads "IP desconocida";
      a missing timestamp is the current time `now`; `smsTime` is the SMS date formatting. */
  function LoginPlan(data: Option<map<string, Json>>, meta: Option<map<string, Json>>, now: string, smsTime: string -> string)
    : Result<seq<Publication>>
  {
    var username :- StringEntry(data, "username");
    var email :- StringEntry(data, "email");
    var phone :- StringEntry(data, "phone");
    var ipAddress :- StringEntry(meta, "ip");
    var stamp :- StringEntry(meta, "timestamp");
    var ip := if ipAddress.Some? then ipAddress.value else "IP desconocida";
    var timestamp := if stamp.Some? then stamp.value else now;
    Ok(LoginPublications(username, email, phone, ip, timestamp, smsTime))
  }

  function LoginPublications(username: Option<string>, email: Option<string>, phone: Option<string>,
                             ip: string, timestamp: string, smsTime: string -> string): seq<Publication>
  {
    [Publication(EmailChannel, EmailValue("security.login", email, "security-alert", LoginAlertData(username, ip, timestamp)))] +
    SmsIfWanted(phone, "security.login", LoginSms(ip, smsTime(timestamp)))
  }

  /** password.reset.requested: one email with the reset link, never an SMS. */
  function ResetPlan(data: Option<map<string, Json>>): Result<seq<Publication>>
  {
    var email :- StringEntry(data, "email");
    var token :- StringEntry(data, "token");
    Ok(ResetPublications(email, token))
  }

  function ResetPublications(email: Option<string>, token: Option<string>): seq<Publication>
  {
    [Publication(EmailChannel, EmailValue("password.reset", email, "password-reset", ResetData(token)))]
  }

  /** password.updated: a notice email, then an SMS. */
  function PasswordUpdatedPlan(data: Option<map<string, Json>>, meta: Option<map<string, Json>>, now: string, smsTime: string -> string)
    : Result<seq<Publication>>
  {
    var username :- StringEntry(data, "username");
    var email :- StringEntry(data, "email");
    var phone :- StringEntry(data, "phone");
    var stamp :- StringEntry(meta, "timestamp");
    var timestamp := if stamp.Some? then stamp.value else now;
    Ok(PasswordUpdatedPublications(username, email, phone, timestamp, smsTime))
  }

  function PasswordUpdatedPublications(username: Option<string>, email: Option<string>, phone: Option<string>,
                                       timestamp: string, smsTime: string -> string): seq<Publication>
  {
    [Publication(EmailChannel, EmailValue("security.password_change", email, "password-changed", PasswordChangedData(username, timestamp)))] +
    SmsIfWanted(phone, "security.password_change", PasswordChangedSms(smsTime(timestamp)))
  }

  // ---------------------------------------------------------------- alerts

  /** One alert of a batch: its labels may be null, and so may each label value. */
  datatype AlertItem = AlertItem(status: Option<string>, labels: Option<map<string, Option<string>>>,
                                 annotations: Option<map<string, Option<string>>>)

  /** An alert batch: the list may be null, and so may each item. */
  datatype AlertEvent = AlertEvent(receiver: Option<string>, status: Option<string>, alerts: Option<seq<Option<AlertItem>>>)

  /** Map.getOrDefault: the stored value (null included) when the key is present. */
  function GetOrDefault(labels: map<string, Option<string>>, key: string, default: string): (r: Option<string>)
    ensures key in labels ==> r == labels[key]
    ensures key !in labels ==> r == Some(default)
  {
    if key in labels then labels[key] else Some(default)
  }

  /** The single service.alert payload of a batch: none for a null event or an empty or null
      list; a NullPointerException for a null first item; otherwise built from the first item. */
  function AlertPayload(event: Option<AlertEvent>, now: string): Result<Option<map<string, Json>>>
  {
    if event.None? || event.value.alerts.None? || event.value.alerts.value == [] then Ok(None)
    else
      var first := event.value.alerts.value[0];
      if first.None? then Thrown(NullPointerException("alert"))
      else
        var labels := if first.value.labels.Some? then first.value.labels.value else map[];
        Ok(Some(map[
          "type" := JString("service.alert"),
          "service" := NullableString(GetOrDefault(labels, "service", "unknown")),
          "alert_name" := NullableString(GetOrDefault(labels, "alertname", "unknown")),
          "instance" := NullableString(GetOrDefault(labels, "instance", "unknown")),
          "severity" := NullableString(GetOrDefault(labels, "severity", "unknown")),
          "timestamp" := JString(now)]))
  }

  const AlertRoutingKey := "service.alert"

  // ---------------------------------------------------------------- the service

  class NotificationOrchestratorService {
    const rabbit: RabbitTemplate
    const authEventsExchange: string
    const sendEmailRoutingKey: string
    const sendSmsRoutingKey: string

    constructor (rabbit: RabbitTemplate, authEventsExchange: string, sendEmailRoutingKey: string, sendSmsRoutingKey: string)
      ensures this.rabbit == rabbit && this.authEventsExchange == authEventsExchange
      ensures this.sendEmailRoutingKey == sendEmailRoutingKey && this.sendSmsRoutingKey == sendSmsRoutingKey
    {
      this.rabbit := rabbit;
      this.authEventsExchange := authEventsExchange;
      this.sendEmailRoutingKey := sendEmailRoutingKey;
      this.sendSmsRoutingKey := sendSmsRoutingKey;
    }

    function RoutingKey(channel: Channel): string
    {
      if channel == EmailChannel then sendEmailRoutingKey else sendSmsRoutingKey
    }

    /** The messages the broker ends up holding for a handler's publications, in order; a
        publication whose send throws is skipped and the rest still go out. */
    function Deliveries(pubs: seq<Publication>): seq<Message>
      reads rabbit
    {
      if pubs == [] then []
      else
        var key := RoutingKey(pubs[0].channel);
        (if key in rabbit.failing then [] else [Message(authEventsExchange, key, NotificationBody(pubs[0].notification))])
        + Deliveries(pubs[1..])
    }

    /** Two publications are delivered one after the other. */
    lemma DeliveriesOfTwo(first: Publication, second: Publication)
      ensures Deliveries([first, second]) == Deliveries([first]) + Deliveries([second])
    {
      assert [first, second][1..] == [second];
      assert [first][1..] == [];
    }

    /** publishNotification: send, and swallow the exception if the send throws. */
    method PublishNotification(routingKey: string, notification: NotificationRequest)
      modifies rabbit
      ensures rabbit.failing == old(rabbit.failing)
      ensures rabbit.outbox == old(rabbit.outbox) +
        (if routingKey in rabbit.failing then [] else [Message(authEventsExchange, routingKey, NotificationBody(notification.Snapshot()))])
    {
      var error := rabbit.ConvertAndSend(authEventsExchange, routingKey, NotificationBody(notification.Snapshot()));
    }

    /** The common tail of the handlers that notify on both channels: publish the email, then,
        when the phone rule allows it, build and publish the SMS. */
    method PublishEmailThenSms(email: NotificationRequest, phone: Option<string>, smsType: string, smsText: string)
      modifies rabbit
      ensures rabbit.failing == old(rabbit.failing)
      ensures rabbit.outbox == old(rabbit.outbox) +
        Deliveries([Publication(EmailChannel, old(email.Snapshot()))] + SmsIfWanted(phone, smsType, smsText))
    {
      ghost var emailPub := Publication(EmailChannel, email.Snapshot());
      PublishNotification(sendEmailRoutingKey, email);
      ghost var afterEmail := rabbit.outbox;
      assert afterEmail == old(rabbit.outbox) + Deliveries([emailPub]);
      if phone.Some? && !IsBlank(phone.value) {
        var smsNotification := NotificationRequest.SmsNotification(Some(smsType), phone, Some(smsText));
        PublishNotification(sendSmsRoutingKey, smsNotification);
        ghost var smsPub := Publication(SmsChannel, smsNotification.Snapshot());
        assert SmsIfWanted(phone, smsType, smsText) == [smsPub];
        assert rabbit.outbox == afterEmail + Deliveries([smsPub]);
        DeliveriesOfTwo(emailPub, smsPub);
      } else {
        assert SmsIfWanted(phone, smsType, smsText) == [];
        assert [emailPub] + [] == [emailPub];
      }
    }

    /** handleUserCreated: the getters run first, in source order, so a throwing getter
        publishes nothing. */
    method HandleUserCreated(event: AuthEvent) returns (outcome: Result<()>)
      modifies rabbit
      ensures rabbit.failing == old(rabbit.failing)
      ensures CreatedPlan(event.data).Thrown? ==>
        outcome == Thrown(CreatedPlan(event.data).exception) && rabbit.outbox == old(rabbit.outbox)
      ensures CreatedPlan(event.data).Ok? ==>
        outcome.Ok? && rabbit.outbox == old(rabbit.outbox) + Deliveries(CreatedPlan(event.data).value)
    {
      var userId :- event.GetUserId();
      var username :- event.GetUsername();
      var email :- event.GetEmail();
      var phone :- event.GetPhone();
      var emailNotification := NotificationRequest.EmailNotification(
        Some("account.confirmation"), email, Some("welcome"), Some(ConfirmationData(userId, username)));
      PublishEmailThenSms(emailNotification, phone, "account.created", WelcomeSms(username));
      outcome := Ok(());
    }

    /** handleUserLogin: `now` is the clock, `smsTime` the SMS date formatting. */
    method HandleUserLogin(event: AuthEvent, now: string, smsTime: string -> string) returns (outcome: Result<()>)
      modifies rabbit
      ensures rabbit.failing == old(rabbit.failing)
      ensures LoginPlan(event.data, event.meta, now, smsTime).Thrown? ==>
        outcome == Thrown(LoginPlan(event.data, event.meta, now, smsTime).exception) && rabbit.outbox == old(rabbit.outbox)
      ensures LoginPlan(event.data, event.meta, now, smsTime).Ok? ==>
        outcome.Ok? && rabbit.outbox == old(rabbit.outbox) + Deliveries(LoginPlan(event.data, event.meta, now, smsTime).value)
    {
      var username :- event.GetUsername();
      var email :- event.GetEmail();
      var phone :- event.GetPhone();
      var ipAddress :- event.GetIpAddress();
      var stamp :- event.GetTimestamp();
      var ip := if ipAddress.Some? then ipAddress.value else "IP desconocida";
      var timestamp := if stamp.Some? then stamp.value else now;
      var emailNotification := NotificationRequest.EmailNotification(
        Some("security.login"), email, Some("security-alert"), Some(LoginAlertData(username, ip, timestamp)));
      PublishEmailThenSms(emailNotification, phone, "security.login", LoginSms(ip, smsTime(timestamp)));
      outcome := Ok(());
    }

    /** handlePasswordResetRequested: one email, no SMS. */
    method HandlePasswordResetRequested(event: AuthEvent) returns (outcome: Result<()>)
      modifies rabbit
      ensures rabbit.failing == old(rabbit.failing)
      ensures ResetPlan(event.data).Thrown? ==>
        outcome == Thrown(ResetPlan(event.data).exception) && rabbit.outbox == old(rabbit.outbox)
      ensures ResetPlan(event.data).Ok? ==>
        outcome.Ok? && rabbit.outbox == old(rabbit.outbox) + Deliveries(ResetPlan(event.data).value)
    {
      var email :- event.GetEmail();
      var token :- event.GetToken();
      var emailNotification := NotificationRequest.EmailNotification(
        Some("password.reset"), email, Some("password-reset"), Some(ResetData(token)));
      PublishNotification(sendEmailRoutingKey, emailNotification);
      outcome := Ok(());
    }

    /** handlePasswordUpdated: `now` is the clock, `smsTime` the SMS date formatting. */
    method HandlePasswordUpdated(event: AuthEvent, now: string, smsTime: string -> string) returns (outcome: Result<()>)
      modifies rabbit
      ensures rabbit.failing == old(rabbit.failing)
      ensures PasswordUpdatedPlan(event.data, event.meta, now, smsTime).Thrown? ==>
        outcome == Thrown(PasswordUpdatedPlan(event.data, event.meta, now, smsTime).exception) && rabbit.outbox == old(rabbit.outbox)
      ensures PasswordUpdatedPlan(event.data, event.meta, now, smsTime).Ok? ==>
        outcome.Ok? && rabbit.outbox == old(rabbit.outbox) + Deliveries(PasswordUpdatedPlan(event.data, event.meta, now, smsTime).value)
    {
      var username :- event.GetUsername();
      var email :- event.GetEmail();
      var phone :- event.GetPhone();
      var stamp :- event.GetTimestamp();
      var timestamp := if stamp.Some? then stamp.value else now;
      var emailNotification := NotificationRequest.EmailNotification(
        Some("security.password_change"), email, Some("password-changed"), Some(PasswordChangedData(username, timestamp)));
      PublishEmailThenSms(emailNotification, phone, "security.password_change", PasswordChangedSms(smsTime(timestamp)));
      outcome := Ok(());
    }

    /** handleAlert: at most one service.alert message; a send failure is swallowed. */
    method HandleAlert(alertEvent: Option<AlertEvent>, now: string) returns (outcome: Result<()>)
      modifies rabbit
      ensures rabbit.failing == old(rabbit.failing)
      ensures AlertPayload(alertEvent, now).Thrown? ==>
        outcome == Thrown(AlertPayload(alertEvent, now).exception) && rabbit.outbox == old(rabbit.outbox)
      ensures AlertPayload(alertEvent, now).Ok? ==> outcome.Ok?
      ensures AlertPayload(alertEvent, now) == Ok(None) ==> rabbit.outbox == old(rabbit.outbox)
      ensures AlertPayload(alertEvent, now).Ok? && AlertPayload(alertEvent, now).value.Some? ==>
        rabbit.outbox == old(rabbit.outbox) +
          (if AlertRoutingKey in rabbit.failing then []
           else [Message(authEventsExchange, AlertRoutingKey, AlertBody(AlertPayload(alertEvent, now).value.value))])
    {
      if alertEvent.None? || alertEvent.value.alerts.None? || |alertEvent.value.alerts.value| == 0 {
        return Ok(());
      }
      var alert := alertEvent.value.alerts.value[0];
      if alert.None? {
        return Thrown(NullPointerException("alert"));
      }
      var labels := if alert.value.labels.Some? then alert.value.labels.value else map[];
      var alertName := GetOrDefault(labels, "alertname", "unknown");
      var service := GetOrDefault(labels, "service", "unknown");
      var instance := GetOrDefault(labels, "instance", "unknown");
      var severity := GetOrDefault(labels, "severity", "unknown");
      var payload := map[
        "type" := JString("service.alert"),
        "service" := NullableString(service),
        "alert_name" := NullableString(alertName),
        "instance" := NullableString(instance),
        "severity" := NullableString(severity),
        "timestamp" := JString(now)];
      var error := rabbit.ConvertAndSend(authEventsExchange, AlertRoutingKey, AlertBody(payload));
      outcome := Ok(());
    }
  }
}
