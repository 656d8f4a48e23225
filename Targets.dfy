/**
 * Message recipients.  A device target holds a registration token fixed at
 * construction; a topic target holds a topic name.  Any other subclass of the
 * abstract target class is carried by its class name only, because the message
 * compares targets by their class.
 */
module Targets {
  import opened Wrappers
  import opened Exceptions

  datatype Target =
    | Device(deviceToken: string)
    | Topic(topicName: string)
    | Other(className: string)

  /** What `get_class` tells apart: the two known classes and any other class by name. */
  datatype TargetClass = DeviceClass | TopicClass | OtherClass(name: string)

  function ClassOf(t: Target): (c: TargetClass)
    ensures c == DeviceClass <==> t.Device?
    ensures c == TopicClass <==> t.Topic?
  {
    match t
    case Device(_) => DeviceClass
    case Topic(_) => TopicClass
    case Other(name) => OtherClass(name)
  }

  /** `new FcmDeviceTarget($token)`: any string is accepted, the empty one included. */
  function NewDeviceTarget(token: string): (t: Target)
    ensures t.Device? && t.deviceToken == token
  {
    Device(token)
  }

  /**
   * `getDeviceToken()`: the token the target was built with.  The target has no
   * setter, so the token identifies the target completely.
   */
  function GetDeviceToken(t: Target): (token: string)
    requires t.Device?
    ensures Device(token) == t
  {
    t.deviceToken
  }

  /** `getTopicName()`, which only topic targets define. */
  function GetTopicName(t: Target): (r: Result<string, FcmException>)
    ensures r.Success? <==> t.Topic?
    ensures r.Success? ==> r.value == t.topicName
    ensures r.Failure? ==> r.error == UndefinedMethod("getTopicName")
  {
    if t.Topic? then Success(t.topicName) else Failure(UndefinedMethod("getTopicName"))
  }

  /**
   * The token the message reads from a device target.  The message calls
   * `getToken()`, which the device target class does not declare; this is the
   * evidently intended reading of the stored token, and the one the rest of the
   * model uses.
   */
  function GetToken(t: Target): (r: Result<string, FcmException>)
    ensures r.Success? <==> t.Device?
    ensures r.Success? ==> r.value == GetDeviceToken(t)
    ensures r.Failure? ==> r.error == UndefinedMethod("getToken")
  {
    if t.Device? then Success(t.deviceToken) else Failure(UndefinedMethod("getToken"))
  }

  /** `$device->getToken()` as written: the device target class declares only `getDeviceToken()`. */
  function GetTokenAsWritten(t: Target): (r: Result<string, FcmException>)
    requires t.Device?
    ensures r == Failure(UndefinedMethod("getToken"))
  {
    Failure(UndefinedMethod("getToken"))
  }

  /** As written, reading the token of a device target fails where the token is meant to come back. */
  lemma GetTokenAsWrittenFails(token: string)
    ensures GetTokenAsWritten(Device(token)).Failure?
    ensures GetToken(Device(token)) == Success(token)
  {
  }
}
