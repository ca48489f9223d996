/** Broker configuration, read once at start-up (TaskManagementApp/ServiceBus/RabbitMqConfig.cs). */
module Config {

  const DefaultRetryCount: int := 5
  const DefaultRetryIntervalMs: int := 1000

  datatype RabbitMqConfig = RabbitMqConfig(
    HostName: string,
    Port: int,
    UserName: string,
    Password: string,
    VirtualHost: string,
    TaskCreatedQueueName: string,
    TaskUpdatedQueueName: string,
    RetryCount: int,
    RetryIntervalMs: int)

  /** A configuration that sets only the required properties: the retry
      fields take their initialiser values and `Port` its C# default 0. */
  function WithDefaults(host: string, user: string, password: string, vhost: string,
                        createdQueue: string, updatedQueue: string): (c: RabbitMqConfig)
    ensures c.RetryCount == 5 && c.RetryIntervalMs == 1000 && c.Port == 0
    ensures c.TaskCreatedQueueName == createdQueue && c.TaskUpdatedQueueName == updatedQueue
  {
    RabbitMqConfig(host, 0, user, password, vhost, createdQueue, updatedQueue,
                   DefaultRetryCount, DefaultRetryIntervalMs)
  }
}
