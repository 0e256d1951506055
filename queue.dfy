/**
 * The task queue the endpoints hand work to (`.delay(...)`) and the retry
 * rule of a bound task's `self.retry(exc=e)`. A task's id is its position in
 * the queue; workers, countdowns and serialization are not part of this model.
 */
module Tasks {
  import opened Wrappers
  import opened Values
  import Schemas

  /** The payment_data dict the recurring-payment endpoint builds for its task. */
  datatype RecurringPaymentData = RecurringPaymentData(
    amount: real,
    currency: Option<string>,
    description: Option<string>,
    receipt: Option<string>,
    notes: Option<map<string, Json>>)

  datatype Task =
    | AuthorizeTask(customerId: int, mandateId: int, orderData: Schemas.OrderCreate)
    | RecurringTask(mandateId: int, paymentData: RecurringPaymentData)
    | ValidateTask(mandateId: int)
    | WebhookTask(webhookId: int)

  /** A queued task with the number of retries already spent on it. */
  datatype Queued = Queued(task: Task, retries: nat)

  /** How a task run ends: a return value, a retry that was scheduled, or a final failure. */
  datatype TaskOutcome =
    | Completed(result: map<string, Json>)
    | RetryScheduled(exc: Exc)
    | Failed(exc: Exc)

  /** Celery's default max_retries, which `self.retry` applies when the task declares none. */
  const DefaultMaxRetries: nat := 3

  class TaskQueue {
    var entries: seq<Queued>

    constructor()
      ensures entries == []
    {
      entries := [];
    }

    /** `.delay(...)`: appends the task; its id is its position. */
    method Enqueue(task: Task) returns (taskId: nat)
      modifies this
      ensures taskId == |old(entries)|
      ensures entries == old(entries) + [Queued(task, 0)]
    {
      taskId := |entries|;
      entries := entries + [Queued(task, 0)];
    }

    /**
     * `self.retry(exc=e)` in a run that has already been retried `retries`
     * times: below the bound the task is queued again with one more retry,
     * at the bound the exception ends the task.
     */
    method Retry(task: Task, retries: nat, maxRetries: nat, exc: Exc) returns (outcome: TaskOutcome)
      modifies this
      ensures outcome == RetryOutcome(retries, maxRetries, exc)
      ensures entries == old(entries) + (if retries < maxRetries then [Queued(task, retries + 1)] else [])
    {
      if retries < maxRetries {
        entries := entries + [Queued(task, retries + 1)];
        outcome := RetryScheduled(exc);
      } else {
        outcome := Failed(exc);
      }
    }
  }

  /** The outcome `self.retry` gives after `retries` earlier retries. */
  function RetryOutcome(retries: nat, maxRetries: nat, exc: Exc): (o: TaskOutcome)
    ensures o.RetryScheduled? <==> retries < maxRetries
    ensures o.RetryScheduled? || o.Failed?
    ensures o.RetryScheduled? ==> o.exc == exc
    ensures o.Failed? ==> o.exc == exc
  {
    if retries < maxRetries then RetryScheduled(exc) else Failed(exc)
  }
}
