/** What the orchestrator's handlers promise, stated over the publication plans and the
    broker's outbox. */
module OrchestratorProperties {
  import opened Basics
  import opened Java
  import opened Json
  import opened AuthEvents
  import opened NotificationRequests
  import opened OrchestratorService

  // ---------------------------------------------------------------- the phone rule

  /** An SMS is added exactly when the phone is non-null and holds a character above space. */
  lemma SmsIffUsablePhone(phone: Option<string>, notificationType: string, message: string)
    ensures |SmsIfWanted(phone, notificationType, message)| <= 1
    ensures |SmsIfWanted(phone, notificationType, message)| == 1 <==>
      phone.Some? && exists i :: 0 <= i < |phone.value| && !Trimmable(phone.value[i])
    ensures |SmsIfWanted(phone, notificationType, message)| == 1 ==>
      SmsIfWanted(phone, notificationType, message)[0] ==
        Publication(SmsChannel, Notification(Some(notificationType), phone, None, Some(message), None))
  {
    if phone.Some? {
      BlankIffAllTrimmable(phone.value);
    }
  }

  /** A phone of spaces, tabs or line breaks only gets no SMS. */
  lemma WhitespacePhoneGetsNoSms(phone: string, notificationType: string, message: string)
    requires forall i :: 0 <= i < |phone| ==> Trimmable(phone[i])
    ensures SmsIfWanted(Some(phone), notificationType, message) == []
  {
    BlankIffAllTrimmable(phone);
  }

  // ---------------------------------------------------------------- user.created

  /** A throwing getter is the only way user.created fails, and the first one in source order
      decides the exception. */
  lemma CreatedThrowsIff(data: Option<map<string, Json>>)
    ensures CreatedPlan(data).Thrown? <==>
      StringEntry(data, "id").Thrown? || StringEntry(data, "username").Thrown? ||
      StringEntry(data, "email").Thrown? || StringEntry(data, "phone").Thrown?
    ensures StringEntry(data, "id").Thrown? ==> CreatedPlan(data) == Thrown(ClassCastException("id"))
    ensures StringEntry(data, "id").Ok? && StringEntry(data, "username").Thrown? ==>
      CreatedPlan(data) == Thrown(ClassCastException("username"))
    ensures StringEntry(data, "id").Ok? && StringEntry(data, "username").Ok? && StringEntry(data, "email").Thrown? ==>
      CreatedPlan(data) == Thrown(ClassCastException("email"))
    ensures StringEntry(data, "id").Ok? && StringEntry(data, "username").Ok? && StringEntry(data, "email").Ok? &&
            StringEntry(data, "phone").Thrown? ==>
      CreatedPlan(data) == Thrown(ClassCastException("phone"))
  {
  }

  /** user.created: whatever the phone, the confirmation email comes first, addressed to the
      event's email, with the username and the link built from the user id; the welcome SMS
      follows by the phone rule, so a null phone leaves the email alone. */
  lemma CreatedSendsConfirmation(data: Option<map<string, Json>>)
    requires CreatedPlan(data).Ok?
    ensures CreatedPlan(data).value[0] == Publication(EmailChannel,
      EmailValue("account.confirmation", StringEntry(data, "email").value, "welcome",
                 ConfirmationData(StringEntry(data, "id").value, StringEntry(data, "username").value)))
    ensures StringEntry(data, "id").value.Some? ==>
      CreatedPlan(data).value[0].notification.data.value["confirmationUrl"] ==
        JString("http://localhost:3500/confirm/" + StringEntry(data, "id").value.value)
    ensures |CreatedPlan(data).value| == 2 <==> SmsWanted(StringEntry(data, "phone").value)
    ensures StringEntry(data, "phone").value.None? ==> |CreatedPlan(data).value| == 1
  {
    var userId, username := StringEntry(data, "id").value, StringEntry(data, "username").value;
    var email, phone := StringEntry(data, "email").value, StringEntry(data, "phone").value;
    assert CreatedPlan(data) == Ok(CreatedPublications(userId, username, email, phone));
    if userId.Some? {
      assert Str(userId) == userId.value;
    }
  }

  /** A null user id (null data, no "id" key or a JSON null) still yields a link: Java's string
      concatenation writes "null". A null username goes into the data as JSON null. */
  lemma CreatedWithoutIdLinksToNull(data: Option<map<string, Json>>)
    requires CreatedPlan(data).Ok? && StringEntry(data, "id") == Ok(None)
    ensures CreatedPlan(data).value[0].notification.data.Some?
    ensures CreatedPlan(data).value[0].notification.data.value["confirmationUrl"] ==
      JString("http://localhost:3500/confirm/null")
    ensures StringEntry(data, "username") == Ok(None) ==>
      CreatedPlan(data).value[0].notification.data.value["username"] == JNull
  {
    var username := StringEntry(data, "username").value;
    var email, phone := StringEntry(data, "email").value, StringEntry(data, "phone").value;
    assert CreatedPlan(data) == Ok(CreatedPublications(None, username, email, phone));
    assert Str(None) == "null";
  }

  /** With a usable phone, user.created publishes the email and then the welcome SMS to it. */
  lemma CreatedSmsFollowsEmail(data: Option<map<string, Json>>, phone: string)
    requires CreatedPlan(data).Ok?
    requires StringEntry(data, "phone") == Ok(Some(phone)) && !IsBlank(phone)
    ensures |CreatedPlan(data).value| == 2
    ensures CreatedPlan(data).value[0].channel == EmailChannel
    ensures CreatedPlan(data).value[1] == Publication(SmsChannel,
      SmsValue("account.created", Some(phone), WelcomeSms(StringEntry(data, "username").value)))
  {
  }

  // ---------------------------------------------------------------- user.login

  /** user.login: the security-alert email comes first, to the event's email. A null ip (null
      meta, no "ip" key or a JSON null there) reads "IP desconocida", and a null timestamp is
      the clock; the SMS, sent by the phone rule, carries the same ip and time. */
  lemma LoginDefaults(data: Option<map<string, Json>>, meta: Option<map<string, Json>>, now: string, smsTime: string -> string)
    requires LoginPlan(data, meta, now, smsTime).Ok?
    ensures var ip := if StringEntry(meta, "ip").value.Some? then StringEntry(meta, "ip").value.value else "IP desconocida";
      var timestamp := if StringEntry(meta, "timestamp").value.Some? then StringEntry(meta, "timestamp").value.value else now;
      LoginPlan(data, meta, now, smsTime).value[0] == Publication(EmailChannel,
        EmailValue("security.login", StringEntry(data, "email").value, "security-alert",
                   LoginAlertData(StringEntry(data, "username").value, ip, timestamp))) &&
      (|LoginPlan(data, meta, now, smsTime).value| == 2 ==>
        LoginPlan(data, meta, now, smsTime).value[1] == Publication(SmsChannel,
          SmsValue("security.login", StringEntry(data, "phone").value, LoginSms(ip, smsTime(timestamp)))))
    ensures |LoginPlan(data, meta, now, smsTime).value| == 2 <==> SmsWanted(StringEntry(data, "phone").value)
    ensures |LoginPlan(data, meta, now, smsTime).value| <= 2
    ensures StringEntry(meta, "ip") == Ok(None) ==>
      LoginPlan(data, meta, now, smsTime).value[0].notification.data.value["ip"] == JString("IP desconocida")
    ensures StringEntry(meta, "timestamp") == Ok(None) ==>
      LoginPlan(data, meta, now, smsTime).value[0].notification.data.value["timestamp"] == JString(now)
  {
    var username, email, phone := StringEntry(data, "username").value, StringEntry(data, "email").value, StringEntry(data, "phone").value;
    var ip := if StringEntry(meta, "ip").value.Some? then StringEntry(meta, "ip").value.value else "IP desconocida";
    var timestamp := if StringEntry(meta, "timestamp").value.Some? then StringEntry(meta, "timestamp").value.value else now;
    assert LoginPlan(data, meta, now, smsTime) == Ok(LoginPublications(username, email, phone, ip, timestamp, smsTime));
  }

  /** user.login with ip and timestamp in meta: both reach the email and the SMS text. */
  lemma LoginUsesMeta(data: Option<map<string, Json>>, meta: map<string, Json>, ip: string, timestamp: string,
                      now: string, smsTime: string -> string, phone: string)
    requires "ip" in meta && meta["ip"] == JString(ip)
    requires "timestamp" in meta && meta["timestamp"] == JString(timestamp)
    requires StringEntry(data, "username").Ok? && StringEntry(data, "email").Ok?
    requires StringEntry(data, "phone") == Ok(Some(phone)) && !IsBlank(phone)
    ensures LoginPlan(data, Some(meta), now, smsTime).Ok?
    ensures |LoginPlan(data, Some(meta), now, smsTime).value| == 2
    ensures LoginPlan(data, Some(meta), now, smsTime).value[0].notification.data ==
      Some(LoginAlertData(StringEntry(data, "username").value, ip, timestamp))
    ensures LoginPlan(data, Some(meta), now, smsTime).value[1] == Publication(SmsChannel,
      Notification(Some("security.login"), Some(phone), None,
                   Some("Alerta: Nuevo acceso a tu cuenta desde " + ip + " el " + smsTime(timestamp)), None))
  {
  }

  // ---------------------------------------------------------------- password events

  /** password.reset.requested sends exactly one email, the reset link to the event's email,
      and never an SMS, whatever the phone. */
  lemma ResetNeverSms(data: Option<map<string, Json>>)
    requires ResetPlan(data).Ok?
    ensures |ResetPlan(data).value| == 1
    ensures ResetPlan(data).value[0] == Publication(EmailChannel,
      EmailValue("password.reset", StringEntry(data, "email").value, "password-reset", ResetData(StringEntry(data, "token").value)))
    ensures ResetPlan(data).value[0].notification.data ==
      Some(map["resetUrl" := JString("http://localhost:3500/reset-password/" + Str(StringEntry(data, "token").value))])
  {
  }

  /** password.reset.requested reads only the email and the token: a malformed phone or
      username does not make it throw. */
  lemma ResetIgnoresOtherFields(data: map<string, Json>, key: string, v: Json)
    requires key != "email" && key != "token"
    ensures ResetPlan(Some(data[key := v])) == ResetPlan(Some(data))
  {
    assert StringEntry(Some(data[key := v]), "email") == StringEntry(Some(data), "email");
    assert StringEntry(Some(data[key := v]), "token") == StringEntry(Some(data), "token");
  }

  /** password.updated: the password-changed email comes first, to the event's email, stamped
      with the meta timestamp, or with the clock when it is null (null meta, no "timestamp" key
      or a JSON null there); the SMS, sent by the phone rule, carries the same time. */
  lemma PasswordUpdatedDefaults(data: Option<map<string, Json>>, meta: Option<map<string, Json>>, now: string, smsTime: string -> string)
    requires PasswordUpdatedPlan(data, meta, now, smsTime).Ok?
    ensures var timestamp := if StringEntry(meta, "timestamp").value.Some? then StringEntry(meta, "timestamp").value.value else now;
      PasswordUpdatedPlan(data, meta, now, smsTime).value[0] == Publication(EmailChannel,
        EmailValue("security.password_change", StringEntry(data, "email").value, "password-changed",
                   PasswordChangedData(StringEntry(data, "username").value, timestamp))) &&
      (|PasswordUpdatedPlan(data, meta, now, smsTime).value| == 2 ==>
        PasswordUpdatedPlan(data, meta, now, smsTime).value[1] == Publication(SmsChannel,
          SmsValue("security.password_change", StringEntry(data, "phone").value, PasswordChangedSms(smsTime(timestamp)))))
    ensures |PasswordUpdatedPlan(data, meta, now, smsTime).value| == 2 <==> SmsWanted(StringEntry(data, "phone").value)
    ensures |PasswordUpdatedPlan(data, meta, now, smsTime).value| <= 2
    ensures StringEntry(meta, "timestamp") == Ok(None) ==>
      PasswordUpdatedPlan(data, meta, now, smsTime).value[0].notification.data ==
        Some(map["username" := NullableString(StringEntry(data, "username").value), "timestamp" := JString(now)])
  {
    var username, email, phone := StringEntry(data, "username").value, StringEntry(data, "email").value, StringEntry(data, "phone").value;
    var timestamp := if StringEntry(meta, "timestamp").value.Some? then StringEntry(meta, "timestamp").value.value else now;
    assert PasswordUpdatedPlan(data, meta, now, smsTime) == Ok(PasswordUpdatedPublications(username, email, phone, timestamp, smsTime));
  }

  // ---------------------------------------------------------------- delivery

  /** Deliveries distributes over concatenation: each publication is sent on its own. */
  lemma {:induction false} DeliveriesAppend(s: NotificationOrchestratorService, a: seq<Publication>, b: seq<Publication>)
    ensures s.Deliveries(a + b) == s.Deliveries(a) + s.Deliveries(b)
  {
    if a == [] {
      assert a + b == b;
    } else {
      assert (a + b)[1..] == a[1..] + b;
      DeliveriesAppend(s, a[1..], b);
    }
  }

  /** With no failing key, every publication reaches the outbox, in order, on its channel's key. */
  lemma {:induction false} HealthyBrokerDeliversAll(s: NotificationOrchestratorService, pubs: seq<Publication>)
    requires s.sendEmailRoutingKey !in s.rabbit.failing && s.sendSmsRoutingKey !in s.rabbit.failing
    ensures |s.Deliveries(pubs)| == |pubs|
    ensures forall i :: 0 <= i < |pubs| ==>
      s.Deliveries(pubs)[i] == Message(s.authEventsExchange, s.RoutingKey(pubs[i].channel), NotificationBody(pubs[i].notification))
  {
    if pubs != [] {
      HealthyBrokerDeliversAll(s, pubs[1..]);
      forall i | 0 <= i < |pubs|
        ensures s.Deliveries(pubs)[i] == Message(s.authEventsExchange, s.RoutingKey(pubs[i].channel), NotificationBody(pubs[i].notification))
      {
        if i > 0 {
          assert pubs[1..][i - 1] == pubs[i];
        }
      }
    }
  }

  /** publishNotification swallows a failed send: an email that cannot be sent does not stop
      the SMS behind it. */
  lemma FailedEmailKeepsSms(s: NotificationOrchestratorService, email: Notification, sms: Notification)
    requires s.sendEmailRoutingKey in s.rabbit.failing && s.sendSmsRoutingKey !in s.rabbit.failing
    ensures s.Deliveries([Publication(EmailChannel, email), Publication(SmsChannel, sms)]) ==
      [Message(s.authEventsExchange, s.sendSmsRoutingKey, NotificationBody(sms))]
  {
    var pubs := [Publication(EmailChannel, email), Publication(SmsChannel, sms)];
    assert pubs[1..] == [Publication(SmsChannel, sms)];
    assert pubs[1..][1..] == [];
    assert s.Deliveries(pubs) == [] + s.Deliveries(pubs[1..]);
    assert s.Deliveries(pubs[1..]) == [Message(s.authEventsExchange, s.sendSmsRoutingKey, NotificationBody(sms))] + s.Deliveries([]);
  }

  /** Nothing is sent on the failing keys, and no more messages than publications. */
  lemma {:induction false} DeliveriesBounded(s: NotificationOrchestratorService, pubs: seq<Publication>)
    ensures |s.Deliveries(pubs)| <= |pubs|
    ensures forall m | m in s.Deliveries(pubs) :: m.routingKey !in s.rabbit.failing && m.exchange == s.authEventsExchange
  {
    if pubs != [] {
      DeliveriesBounded(s, pubs[1..]);
    }
  }

  // ---------------------------------------------------------------- alerts

  /** No alert, no message: a null event, a null list and an empty list publish nothing. */
  lemma AlertNothingWithoutItems(receiver: Option<string>, status: Option<string>, now: string)
    ensures AlertPayload(None, now) == Ok(None)
    ensures AlertPayload(Some(AlertEvent(receiver, status, None)), now) == Ok(None)
    ensures AlertPayload(Some(AlertEvent(receiver, status, Some([]))), now) == Ok(None)
  {
  }

  /** Only the first alert of a batch is read. */
  lemma AlertUsesFirstItem(e: AlertEvent, rest: seq<Option<AlertItem>>, now: string)
    requires e.alerts.Some? && |e.alerts.value| >= 1
    ensures AlertPayload(Some(e), now) ==
      AlertPayload(Some(e.(alerts := Some([e.alerts.value[0]] + rest))), now)
  {
  }

  /** A null first item ends in a NullPointerException before anything is sent. */
  lemma AlertNullFirstThrows(e: AlertEvent, now: string)
    requires e.alerts.Some? && |e.alerts.value| >= 1 && e.alerts.value[0].None?
    ensures AlertPayload(Some(e), now).Thrown?
  {
  }

  /** An item without labels reports every label as "unknown", stamped with the clock. */
  lemma AlertUnknownLabels(e: AlertEvent, item: AlertItem, now: string)
    requires e.alerts.Some? && |e.alerts.value| >= 1 && e.alerts.value[0] == Some(item)
    requires item.labels.None?
    ensures AlertPayload(Some(e), now) == Ok(Some(map[
      "type" := JString("service.alert"), "service" := JString("unknown"), "alert_name" := JString("unknown"),
      "instance" := JString("unknown"), "severity" := JString("unknown"), "timestamp" := JString(now)]))
  {
  }

  /** getOrDefault keeps a present label, even a null one; only an absent label defaults to
      "unknown". This holds for each of the four labels the payload carries. */
  lemma AlertLabelsCarried(e: AlertEvent, item: AlertItem, labels: map<string, Option<string>>, now: string)
    requires e.alerts.Some? && |e.alerts.value| >= 1 && e.alerts.value[0] == Some(item)
    requires item.labels == Some(labels)
    ensures AlertPayload(Some(e), now).Ok? && AlertPayload(Some(e), now).value.Some?
    ensures var payload := AlertPayload(Some(e), now).value.value;
      payload.Keys == {"type", "service", "alert_name", "instance", "severity", "timestamp"} &&
      payload["type"] == JString("service.alert") && payload["timestamp"] == JString(now)
    ensures var payload := AlertPayload(Some(e), now).value.value;
      ("service" in labels ==> payload["service"] == NullableString(labels["service"])) &&
      ("service" !in labels ==> payload["service"] == JString("unknown"))
    ensures var payload := AlertPayload(Some(e), now).value.value;
      ("alertname" in labels ==> payload["alert_name"] == NullableString(labels["alertname"])) &&
      ("alertname" !in labels ==> payload["alert_name"] == JString("unknown"))
    ensures var payload := AlertPayload(Some(e), now).value.value;
      ("instance" in labels ==> payload["instance"] == NullableString(labels["instance"])) &&
      ("instance" !in labels ==> payload["instance"] == JString("unknown"))
    ensures var payload := AlertPayload(Some(e), now).value.value;
      ("severity" in labels ==> payload["severity"] == NullableString(labels["severity"])) &&
      ("severity" !in labels ==> payload["severity"] == JString("unknown"))
  {
  }
}
