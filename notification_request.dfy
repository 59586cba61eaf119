/** The notification message the orchestrator publishes for the email and SMS services. */
module NotificationRequests {
  import opened Basics
  import opened Json

  /** The fields of a request, as serialized when it is published. */
  datatype Notification = Notification(
    notificationType: Option<string>,
    recipient: Option<string>,
    template: Option<string>,
    message: Option<string>,
    data: Option<map<string, Json>>)

  /** A nullable Java String as a JSON value. */
  function NullableString(s: Option<string>): (j: Json)
    ensures s.Some? ==> j == JString(s.value)
    ensures s.None? ==> j == JNull
  {
    if s.Some? then JString(s.value) else JNull
  }

  class NotificationRequest {
    var notificationType: Option<string>
    var recipient: Option<string>
    var template: Option<string>
    var message: Option<string>
    var data: Option<map<string, Json>>

    function Snapshot(): Notification
      reads this
    {
      Notification(notificationType, recipient, template, message, data)
    }

    /** The no-argument constructor: every field null. */
    constructor Blank()
      ensures Snapshot() == Notification(None, None, None, None, None)
    {
      notificationType := None;
      recipient := None;
      template := None;
      message := None;
      data := None;
    }

    /** Type and recipient only; the rest stays null. */
    constructor (notificationType: Option<string>, recipient: Option<string>)
      ensures Snapshot() == Notification(notificationType, recipient, None, None, None)
    {
      this.notificationType := notificationType;
      this.recipient := recipient;
      template := None;
      message := None;
      data := None;
    }

    /** An email request: type, recipient, template and data set, no message. */
    static method EmailNotification(notificationType: Option<string>, recipient: Option<string>,
                                    template: Option<string>, data: Option<map<string, Json>>)
      returns (request: NotificationRequest)
      ensures fresh(request)
      ensures request.Snapshot() == Notification(notificationType, recipient, template, None, data)
    {
      request := new NotificationRequest(notificationType, recipient);
      request.SetTemplate(template);
      request.SetData(data);
    }

    /** An SMS request: type, recipient and message set, no template and no data. */
    static method SmsNotification(notificationType: Option<string>, recipient: Option<string>, message: Option<string>)
      returns (request: NotificationRequest)
      ensures fresh(request)
      ensures request.Snapshot() == Notification(notificationType, recipient, None, message, None)
    {
      request := new NotificationRequest(notificationType, recipient);
      request.SetMessage(message);
    }

    function GetType(): Option<string> reads this { notificationType }
    function GetRecipient(): Option<string> reads this { recipient }
    function GetTemplate(): Option<string> reads this { template }
    function GetMessage(): Option<string> reads this { message }
    function GetData(): Option<map<string, Json>> reads this { data }

    method SetType(notificationType: Option<string>)
      modifies this
      ensures GetType() == notificationType
      ensures Snapshot() == old(Snapshot()).(notificationType := notificationType)
    {
      this.notificationType := notificationType;
    }

    method SetRecipient(recipient: Option<string>)
      modifies this
      ensures GetRecipient() == recipient
      ensures Snapshot() == old(Snapshot()).(recipient := recipient)
    {
      this.recipient := recipient;
    }

    method SetTemplate(template: Option<string>)
      modifies this
      ensures GetTemplate() == template
      ensures Snapshot() == old(Snapshot()).(template := template)
    {
      this.template := template;
    }

    method SetMessage(message: Option<string>)
      modifies this
      ensures GetMessage() == message
      ensures Snapshot() == old(Snapshot()).(message := message)
    {
      this.message := message;
    }

    method SetData(data: Option<map<string, Json>>)
      modifies this
      ensures GetData() == data
      ensures Snapshot() == old(Snapshot()).(data := data)
    {
      this.data := data;
    }
  }

  /** What an email request built by the factory holds, as a value. */
  function EmailValue(notificationType: string, recipient: Option<string>, template: string, data: map<string, Json>): (n: Notification)
    ensures n.message.None? && n.template == Some(template) && n.data == Some(data)
    ensures n.notificationType == Some(notificationType) && n.recipient == recipient
  {
    Notification(Some(notificationType), recipient, Some(template), None, Some(data))
  }

  /** What an SMS request built by the factory holds, as a value. */
  function SmsValue(notificationType: string, recipient: Option<string>, message: string): (n: Notification)
    ensures n.template.None? && n.data.None? && n.message == Some(message)
    ensures n.notificationType == Some(notificationType) && n.recipient == recipient
  {
    Notification(Some(notificationType), recipient, None, Some(message), None)
  }
}
