/** The request bookkeeping of the image-processing slice: per processing action, the
    URL of its last result, whether a request is in flight and the last error message;
    and the rule that decides whether the request form carries the scale. */
module BackSlice {
  import opened Wrappers

  /** The message stored when a rejection carries none. */
  const UnknownError: string := "Error desconocido"

  /** A JavaScript value passed as `escalaPx`: missing, a number (possibly NaN or
      infinite) or a value of another type. */
  datatype Number = Finite(value: real) | NaN | PositiveInfinity | NegativeInfinity
  datatype EscalaArg = Absent | NumberArg(n: Number) | NonNumber

  /** `typeof escalaPx === "number" && !isNaN(escalaPx)`. */
  predicate ScaleAttached(e: EscalaArg)
  {
    e.NumberArg? && !e.n.NaN?
  }

  /** The parts of the request's `FormData`, in the order they are appended. */
  datatype FormField = ImageField | ActionField(action: string) | ScaleField(scale: Number)

  function FormFields(action: string, e: EscalaArg): (r: seq<FormField>)
    ensures |r| >= 2 && r[0] == ImageField && r[1] == ActionField(action)
    ensures (exists i :: 0 <= i < |r| && r[i].ScaleField?) <==> ScaleAttached(e)
    ensures ScaleAttached(e) ==> r == [ImageField, ActionField(action), ScaleField(e.n)]
    ensures !ScaleAttached(e) ==> |r| == 2
  {
    var base := [ImageField, ActionField(action)];
    if ScaleAttached(e) then
      var r := base + [ScaleField(e.n)];
      assert r[2].ScaleField?;
      r
    else base
  }

  /** An infinite scale (two calibration clicks on the same spot) is still sent. */
  lemma InfiniteScaleIsSent(action: string)
    ensures ScaleField(PositiveInfinity) in FormFields(action, NumberArg(PositiveInfinity))
  {
    assert FormFields(action, NumberArg(PositiveInfinity))[2] == ScaleField(PositiveInfinity);
  }

  /** What a rejected request carries: the action it was for and the error's message,
      which may be missing. The payload itself is missing when the request failed
      before it could be built. */
  datatype RejectedPayload = RejectedPayload(action: string, message: Option<string>)

  /** The key a rejection is recorded under: a missing payload destructures to an
      `undefined` action, which JavaScript turns into the property key "undefined". */
  function RejectedKey(payload: Option<RejectedPayload>): (k: string)
    ensures payload.Some? ==> k == payload.value.action
    ensures payload.None? ==> k == "undefined"
  {
    if payload.Some? then payload.value.action else "undefined"
  }

  /** `error || "Error desconocido"`: an empty or missing message is replaced. */
  function RejectedMessage(payload: Option<RejectedPayload>): (m: string)
    ensures m != []
    ensures m == UnknownError <==>
      payload.None? || payload.value.message.None? || payload.value.message.value in {[], UnknownError}
    ensures m != UnknownError ==> payload.Some? && payload.value.message == Some(m)
  {
    if payload.Some? && payload.value.message.Some? && payload.value.message.value != [] then
      payload.value.message.value
    else
      UnknownError
  }

  /** The slice's state; the three maps are keyed by processing action. */
  class ImageSlice {
    var results: map<string, string>
    var loading: map<string, bool>
    var error: map<string, string>

    constructor()
      ensures results == map[] && loading == map[] && error == map[]
    {
      results := map[];
      loading := map[];
      error := map[];
    }

    /** `pending`: the action is in flight and its error is cleared; results are kept. */
    method Pending(name: string)
      modifies this
      ensures loading == old(loading)[name := true]
      ensures error == old(error)[name := ""]
      ensures results == old(results)
    {
      loading := loading[name := true];
      error := error[name := ""];
    }

    /** `fulfilled`: the action is no longer in flight and its result URL is stored;
        its last error is kept. */
    method Fulfilled(name: string, imageUrl: string)
      modifies this
      ensures loading == old(loading)[name := false]
      ensures results == old(results)[name := imageUrl]
      ensures error == old(error)
    {
      loading := loading[name := false];
      results := results[name := imageUrl];
    }

    /** `rejected`: the action is no longer in flight and its error message is stored;
        its last result is kept. */
    method Rejected(payload: Option<RejectedPayload>)
      modifies this
      ensures loading == old(loading)[RejectedKey(payload) := false]
      ensures error == old(error)[RejectedKey(payload) := RejectedMessage(payload)]
      ensures results == old(results)
    {
      var name := RejectedKey(payload);
      loading := loading[name := false];
      error := error[name := RejectedMessage(payload)];
    }
  }
}
