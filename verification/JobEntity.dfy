/** The job object that the memory adapters and the services share by reference. */
module JobEntity {
  import opened Domain

  /** Identity, type, priority, payload and creation time are fixed when the scheduler
      has built the job; the other fields are updated in place. */
  class Job {
    const id: Id
    const jobType: string
    const priority: int
    const payload: string
    const createdAt: Time
    var status: Status
    var retry: RetryPolicy
    var updatedAt: Time
    var scheduledAt: Time
    var processedAt: Option<Time>
    var completedAt: Option<Time>
    var failedAt: Option<Time>
    var lastError: string
    var workerId: string

    /** The job as a value. */
    function Value(): JobRecord
      reads this
    {
      JobRecord(id, jobType, priority, payload, status, retry, createdAt, updatedAt, scheduledAt,
                processedAt, completedAt, failedAt, lastError, workerId)
    }

    /** The object that holds the given value. */
    constructor (j: JobRecord)
      ensures Value() == j
    {
      id, jobType, priority, payload, createdAt := j.id, j.jobType, j.priority, j.payload, j.createdAt;
      status, retry, updatedAt, scheduledAt := j.status, j.retry, j.updatedAt, j.scheduledAt;
      processedAt, completedAt, failedAt := j.processedAt, j.completedAt, j.failedAt;
      lastError, workerId := j.lastError, j.workerId;
    }

    method MarkAsProcessing(worker: string, updated: Time, processed: Time)
      modifies this
      ensures Value() == AsProcessing(old(Value()), worker, updated, processed)
      ensures status == Processing && workerId == worker && updatedAt == updated && processedAt == Some(processed)
      ensures retry == old(retry) && scheduledAt == old(scheduledAt) && lastError == old(lastError)
      ensures completedAt == old(completedAt) && failedAt == old(failedAt)
    {
      status := Processing;
      workerId := worker;
      updatedAt := updated;
      processedAt := Some(processed);
    }

    method MarkAsCompleted(updated: Time, completed: Time)
      modifies this
      ensures Value() == AsCompleted(old(Value()), updated, completed)
      ensures status == Completed && updatedAt == updated && completedAt == Some(completed)
      ensures retry == old(retry) && scheduledAt == old(scheduledAt) && lastError == old(lastError)
      ensures processedAt == old(processedAt) && failedAt == old(failedAt) && workerId == old(workerId)
    {
      status := Completed;
      updatedAt := updated;
      completedAt := Some(completed);
    }

    method MarkAsFailed(error: string, updated: Time, failed: Time, attempted: Time)
      modifies this
      ensures Value() == AsFailed(old(Value()), error, updated, failed, attempted)
      ensures status == Failed && lastError == error && updatedAt == updated && failedAt == Some(failed)
      ensures retry.currentAttempts == old(retry.currentAttempts) + 1 && retry.lastAttemptAt == Some(attempted)
      ensures retry.maxAttempts == old(retry.maxAttempts) && retry.strategy == old(retry.strategy)
      ensures retry.baseDelay == old(retry.baseDelay) && retry.maxDelay == old(retry.maxDelay)
      ensures scheduledAt == old(scheduledAt) && processedAt == old(processedAt)
      ensures completedAt == old(completedAt) && workerId == old(workerId)
    {
      status := Failed;
      lastError := error;
      updatedAt := updated;
      failedAt := Some(failed);
      retry := retry.(currentAttempts := retry.currentAttempts + 1, lastAttemptAt := Some(attempted));
    }

    method MarkAsDead(updated: Time)
      modifies this
      ensures Value() == AsDead(old(Value()), updated)
      ensures status == Dead && updatedAt == updated
      ensures retry == old(retry) && scheduledAt == old(scheduledAt) && lastError == old(lastError)
      ensures processedAt == old(processedAt) && completedAt == old(completedAt) && failedAt == old(failedAt)
      ensures workerId == old(workerId)
    {
      status := Dead;
      updatedAt := updated;
    }
  }
}
