/** The queue listener: dispatches each authentication event to its handler by the routing key
    the message arrived with, and lets a handler's exception propagate so the broker can
    requeue or dead-letter the message. */
module AuthEventListeners {
  import opened Basics
  import opened Java
  import opened AuthEvents
  import opened Json
  import opened OrchestratorService

  datatype Handler = UserCreated | UserLogin | PasswordResetRequested | PasswordUpdated

  /** The switch on the received routing key; any other key is logged and ignored. */
  function Route(routingKey: string): (h: Option<Handler>)
    ensures h.Some? <==> routingKey in {"user.created", "user.login", "password.reset.requested", "password.updated"}
  {
    if routingKey == "user.created" then Some(UserCreated)
    else if routingKey == "user.login" then Some(UserLogin)
    else if routingKey == "password.reset.requested" then Some(PasswordResetRequested)
    else if routingKey == "password.updated" then Some(PasswordUpdated)
    else None
  }

  /** What one received event publishes, or the exception it ends in. */
  function EventPlan(data: Option<map<string, Json>>, meta: Option<map<string, Json>>, routingKey: string,
                     now: string, smsTime: string -> string): Result<seq<Publication>>
  {
    match Route(routingKey)
    case None => Ok([])
    case Some(UserCreated) => CreatedPlan(data)
    case Some(UserLogin) => LoginPlan(data, meta, now, smsTime)
    case Some(PasswordResetRequested) => ResetPlan(data)
    case Some(PasswordUpdated) => PasswordUpdatedPlan(data, meta, now, smsTime)
  }

  class AuthEventListener {
    const orchestratorService: NotificationOrchestratorService

    constructor (orchestratorService: NotificationOrchestratorService)
      ensures this.orchestratorService == orchestratorService
    {
      this.orchestratorService := orchestratorService;
    }

    /** handleAuthEvent: `now` and `smsTime` stand for the handlers' clock and SMS date
        formatting. A Thrown outcome is the rethrown exception. */
    method HandleAuthEvent(event: AuthEvent, routingKey: string, now: string, smsTime: string -> string)
      returns (outcome: Result<()>)
      modifies orchestratorService.rabbit
      ensures orchestratorService.rabbit.failing == old(orchestratorService.rabbit.failing)
      ensures EventPlan(event.data, event.meta, routingKey, now, smsTime).Thrown? ==>
        outcome == Thrown(EventPlan(event.data, event.meta, routingKey, now, smsTime).exception) &&
        orchestratorService.rabbit.outbox == old(orchestratorService.rabbit.outbox)
      ensures EventPlan(event.data, event.meta, routingKey, now, smsTime).Ok? ==>
        outcome.Ok? &&
        orchestratorService.rabbit.outbox == old(orchestratorService.rabbit.outbox) +
          orchestratorService.Deliveries(EventPlan(event.data, event.meta, routingKey, now, smsTime).value)
    {
      if routingKey == "user.created" {
        outcome := orchestratorService.HandleUserCreated(event);
      } else if routingKey == "user.login" {
        outcome := orchestratorService.HandleUserLogin(event, now, smsTime);
      } else if routingKey == "password.reset.requested" {
        outcome := orchestratorService.HandlePasswordResetRequested(event);
      } else if routingKey == "password.updated" {
        outcome := orchestratorService.HandlePasswordUpdated(event, now, smsTime);
      } else {
        outcome := Ok(());
      }
    }
  }

  /** Each of the four keys selects a different handler. */
  lemma RouteInjective(a: string, b: string)
    requires Route(a).Some? && Route(a) == Route(b)
    ensures a == b
  {
  }

  /** Each known key runs its own handler and no other. */
  lemma EachKeyRunsItsHandler(data: Option<map<string, Json>>, meta: Option<map<string, Json>>,
                              now: string, smsTime: string -> string)
    ensures EventPlan(data, meta, "user.created", now, smsTime) == CreatedPlan(data)
    ensures EventPlan(data, meta, "user.login", now, smsTime) == LoginPlan(data, meta, now, smsTime)
    ensures EventPlan(data, meta, "password.reset.requested", now, smsTime) == ResetPlan(data)
    ensures EventPlan(data, meta, "password.updated", now, smsTime) == PasswordUpdatedPlan(data, meta, now, smsTime)
  {
    CreatedKeyPlan(data, meta, now, smsTime);
    LoginKeyPlan(data, meta, now, smsTime);
    ResetKeyPlan(data, meta, now, smsTime);
    UpdatedKeyPlan(data, meta, now, smsTime);
  }

  lemma CreatedKeyPlan(data: Option<map<string, Json>>, meta: Option<map<string, Json>>,
                       now: string, smsTime: string -> string)
    ensures EventPlan(data, meta, "user.created", now, smsTime) == CreatedPlan(data)
  {
    assert Route("user.created") == Some(UserCreated);
  }

  lemma LoginKeyPlan(data: Option<map<string, Json>>, meta: Option<map<string, Json>>,
                     now: string, smsTime: string -> string)
    ensures EventPlan(data, meta, "user.login", now, smsTime) == LoginPlan(data, meta, now, smsTime)
  {
    assert Route("user.login") == Some(UserLogin);
  }

  lemma ResetKeyPlan(data: Option<map<string, Json>>, meta: Option<map<string, Json>>,
                     now: string, smsTime: string -> string)
    ensures EventPlan(data, meta, "password.reset.requested", now, smsTime) == ResetPlan(data)
  {
    assert Route("password.reset.requested") == Some(PasswordResetRequested);
  }

  lemma UpdatedKeyPlan(data: Option<map<string, Json>>, meta: Option<map<string, Json>>,
                       now: string, smsTime: string -> string)
    ensures EventPlan(data, meta, "password.updated", now, smsTime) == PasswordUpdatedPlan(data, meta, now, smsTime)
  {
    assert Route("password.updated") == Some(PasswordUpdated);
  }

  /** A key the switch does not know publishes nothing and does not throw. */
  lemma UnknownKeyIgnored(data: Option<map<string, Json>>, meta: Option<map<string, Json>>, routingKey: string,
                          now: string, smsTime: string -> string)
    requires routingKey !in {"user.created", "user.login", "password.reset.requested", "password.updated"}
    ensures EventPlan(data, meta, routingKey, now, smsTime) == Ok([])
  {
  }
}
