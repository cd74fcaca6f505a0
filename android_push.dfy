/**
 * services/integrations/push/android.js: the guard and the Firebase Cloud
 * Messaging request built for one Android device. The HTTP post itself is
 * not modelled; `Push` returns the request that would be posted, or `None`
 * when nothing is sent. Either way the source resolves to null afterwards.
 */
module AndroidPush {
  import opened Wrappers
  import opened JsonValue
  import opened Models

  const OriginChatz: string := "chatz"
  const TimeToLive: int := 600

  datatype FcmData = FcmData(origin: string, event: Json, message: Json)

  /** The header and body posted to the FCM endpoint. */
  datatype FcmRequest = FcmRequest(
    authorization: string,
    registrationIds: seq<string>,
    timeToLive: int,
    data: FcmData)

  /** `configuration.fcm.server_key` when `configuration.fcm` is truthy. */
  function ServerKey(configuration: Json): Option<Json>
  {
    match Get(configuration, "fcm")
    case Some(fcm) => if Truthy(fcm) then Get(fcm, "server_key") else None
    case None => None
  }

  /**
   * `push(configuration, user, device, event, message)`. Reading `.fcm` of a
   * null configuration throws, which the model reports as `TypeError`; a
   * device without a push token is skipped before the configuration is read.
   */
  function Push(configuration: Json, device: Device, event: Json, message: Json)
    : (r: Result<Option<FcmRequest>, Error>)
    ensures !Present(device.pushToken) ==> r == Ok(None)
    ensures Present(device.pushToken) && configuration.Null? ==> r == Err(TypeError)
    ensures r.Err? ==> r.error == TypeError
    ensures r.Ok? && r.value.Some? <==>
      Present(device.pushToken) && !configuration.Null?
      && ServerKey(configuration).Some? && Truthy(ServerKey(configuration).value)
    ensures r.Ok? && r.value.Some? ==>
      var req := r.value.value;
      && req.authorization == "key=" + ToJsString(ServerKey(configuration).value)
      && req.registrationIds == [device.pushToken.value]
      && req.timeToLive == 600
      && req.data == FcmData("chatz", event, message)
  {
    if !Present(device.pushToken) then Ok(None)
    else if configuration.Null? then Err(TypeError)
    else
      match ServerKey(configuration)
      case Some(key) =>
        if Truthy(key) then
          Ok(Some(FcmRequest("key=" + ToJsString(key), [device.pushToken.value], TimeToLive,
                             FcmData(OriginChatz, event, message))))
        else Ok(None)
      case None => Ok(None)
  }

  /**
   * Only `configuration.fcm` decides the outcome: two non-null configurations
   * that agree on `fcm` give the same request, whatever else they hold, so no
   * other entry of an app's configuration can reach the FCM header.
   */
  lemma PushReadsOnlyFcm(c1: Json, c2: Json, device: Device, event: Json, message: Json)
    requires !c1.Null? && !c2.Null? && Get(c1, "fcm") == Get(c2, "fcm")
    ensures Push(c1, device, event, message) == Push(c2, device, event, message)
  {
    assert ServerKey(c1) == ServerKey(c2);
  }
}
