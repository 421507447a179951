/** Device capture in FarmerDashboard.tsx: the geolocation fix that goes
    into every submission, and the outcome of choosing a photo file. The
    browser APIs themselves are outside the model; what they report is
    passed in as a value. */
module Capture {
  import opened Domain

  /** `{lat, lng}`, each `null` when no position is known. */
  datatype Coordinates = Coordinates(lat: Option<real>, lng: Option<real>)

  /** What the device's geolocation reports for one request: no geolocation
      capability at all, the error callback (permission denied, timeout,
      position unavailable), a position, or no callback at all. The request
      sets no `timeout`, so the browser may never answer it, for example
      while a permission prompt stays open. */
  datatype Geolocation =
    | NoGeolocation
    | PositionError
    | Position(latitude: real, longitude: real)
    | NoAnswer

  /** `captureGps`: one position request. `None` is a promise that stays
      pending because the browser never calls back; every other outcome
      resolves. A reported position gives its latitude and longitude; a
      missing capability or an error gives `{lat: null, lng: null}`. (With
      no capability the code resolves with nulls and then fails calling
      `getCurrentPosition` on an undefined object inside the promise
      executor; that failure is dropped because the promise has already
      resolved.) */
  function CaptureGps(g: Geolocation): (c: Option<Coordinates>)
    ensures c.None? <==> g.NoAnswer?
    ensures c.Some? ==> (c.value.lat.Some? <==> c.value.lng.Some?)
    ensures c.Some? ==> (c.value.lat.Some? <==> g.Position?)
    ensures g.Position? ==> c.value.lat.value == g.latitude && c.value.lng.value == g.longitude
  {
    match g
    case Position(latitude, longitude) => Some(Coordinates(Some(latitude), Some(longitude)))
    case NoAnswer => None
    case _ => Some(Coordinates(None, None))
  }

  /** What a change event on the photo input delivers: no file, a file whose
      `FileReader` load finished with the given `result` (a data URL, or
      `null`), or a file whose read failed, so that `onload` never runs. */
  datatype PhotoSelection =
    | NoFile
    | Loaded(result: Option<string>)
    | ReadFailed
}
