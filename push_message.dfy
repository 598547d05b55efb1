/** Push messages: the raw record the push plugin delivers, normalised into
    the fields the SDK exposes. */
module PushMessages {
  import opened JsValues

  /** The `additionalData` a development push (one without it) is given. */
  const DefaultAdditionalData: Value := Obj(map["coldstart" := Bool(false), "foreground" := Bool(true)])

  /** The raw record the constructor keeps: `raw || {}`, with the default
      `additionalData` installed when the given one reads as empty. */
  function DefaultedRaw(raw: Value): (r: map<string, Value>)
    requires raw.Obj? || !Truthy(raw)
    ensures Truthy(Field(Obj(r), "additionalData"))
    ensures Truthy(Field(raw, "additionalData")) ==> r == raw.fields
    ensures !Truthy(Field(raw, "additionalData")) ==>
              r == FieldsOf(raw)["additionalData" := DefaultAdditionalData]
  {
    var base := FieldsOf(raw);
    if Truthy(Field(Obj(base), "additionalData")) then base
    else base["additionalData" := DefaultAdditionalData]
  }

  /** Everything `processRaw()` derives from the raw record. */
  datatype Normalised = Normalised(
    text: Value, title: Value, count: Value, sound: Value, image: Value,
    asleep: bool, closed: bool, payload: Value)

  /** `processRaw()` as a function of the kept raw record (`payload` is the
      `_payload` field: the raw payload when truthy, else still `null`). */
  function Normalise(raw: map<string, Value>): (n: Normalised) {
    var additional := Field(Obj(raw), "additionalData");
    Normalised(
      OrNull(Field(Obj(raw), "message")),
      OrNull(Field(Obj(raw), "title")),
      OrNull(Field(Obj(raw), "count")),
      OrNull(Field(Obj(raw), "sound")),
      OrNull(Field(Obj(raw), "image")),
      !Truthy(Field(additional, "foreground")),
      Truthy(Field(additional, "coldstart")),
      OrNull(Field(additional, "payload")))
  }

  /** The app was asleep exactly when `foreground` reads as false, and
      closed exactly when `coldstart` reads as true. */
  lemma AppStatusFromFlags(raw: Value)
    requires raw.Obj? || !Truthy(raw)
    ensures var additional := Field(Obj(DefaultedRaw(raw)), "additionalData");
      && (Normalise(DefaultedRaw(raw)).asleep <==> !Truthy(Field(additional, "foreground")))
      && (Normalise(DefaultedRaw(raw)).closed <==> Truthy(Field(additional, "coldstart")))
  {
  }

  /** A push without `additionalData` reports an app that was neither asleep
      nor closed, and carries no payload. */
  lemma DevelopmentPushIsForeground(raw: Value)
    requires raw.Obj? || !Truthy(raw)
    requires !Truthy(Field(raw, "additionalData"))
    ensures !Normalise(DefaultedRaw(raw)).asleep && !Normalise(DefaultedRaw(raw)).closed
    ensures Normalise(DefaultedRaw(raw)).payload == Null
  {
    var r := DefaultedRaw(raw);
    assert Field(Obj(r), "additionalData") == DefaultAdditionalData;
  }

  /** Each text field is the raw field when that is truthy and `null`
      otherwise: a count of `0` or an empty title reads as `null`. */
  lemma FieldsCoercedToNull(raw: map<string, Value>)
    ensures var n := Normalise(raw); var r := Obj(raw);
      && (Truthy(Field(r, "message")) ==> n.text == Field(r, "message"))
      && (!Truthy(Field(r, "message")) ==> n.text == Null)
      && (Truthy(Field(r, "title")) ==> n.title == Field(r, "title"))
      && (!Truthy(Field(r, "title")) ==> n.title == Null)
      && (Truthy(Field(r, "count")) ==> n.count == Field(r, "count"))
      && (!Truthy(Field(r, "count")) ==> n.count == Null)
      && (Truthy(Field(r, "sound")) ==> n.sound == Field(r, "sound"))
      && (!Truthy(Field(r, "sound")) ==> n.sound == Null)
      && (Truthy(Field(r, "image")) ==> n.image == Field(r, "image"))
      && (!Truthy(Field(r, "image")) ==> n.image == Null)
    ensures Field(Obj(raw), "count") == Num(0) ==> Normalise(raw).count == Null
    ensures Field(Obj(raw), "title") == Str("") ==> Normalise(raw).title == Null
  {
  }

  class PushMessageAppStatus {
    var asleep: bool
    var closed: bool

    constructor ()
      ensures !asleep && !closed
    {
      asleep := false;
      closed := false;
    }

    function WasAsleep(): (r: bool)
      reads this
    {
      asleep
    }

    function WasClosed(): (r: bool)
      reads this
    {
      closed
    }
  }

  class PushMessage {
    /** `_raw`: the plugin's record, with `additionalData` defaulted. */
    var raw: map<string, Value>
    /** `_payload`. */
    var payloadField: Value
    var app: PushMessageAppStatus?
    var text: Value
    var title: Value
    var count: Value
    var sound: Value
    var image: Value

    /** The kept record always has a truthy `additionalData`. */
    ghost predicate Valid()
      reads this
    {
      Truthy(Field(Obj(raw), "additionalData"))
    }

    /** The normalised view, once `processRaw()` has run. */
    function View(): (n: Normalised)
      requires app != null
      reads this, app
    {
      Normalised(text, title, count, sound, image, app.asleep, app.closed, payloadField)
    }

    /** `new PushMessage(raw)`: keeps the record (an empty one for a falsy
        `raw`) with a default `additionalData`, and clears every field. */
    constructor (raw: Value)
      requires raw.Obj? || !Truthy(raw)
      ensures Valid() && this.raw == DefaultedRaw(raw)
      ensures payloadField == Null && app == null
      ensures text == Null && title == Null && count == Null && sound == Null && image == Null
    {
      var kept := FieldsOf(Or(raw, EmptyObject));
      if !Truthy(Field(Obj(kept), "additionalData")) {
        kept := kept["additionalData" := DefaultAdditionalData];
      }
      this.raw := kept;
      payloadField := Null;
      app := null;
      text, title, count, sound, image := Null, Null, Null, Null, Null;
    }

    /** `PushMessage.fromPluginJSON(json)`: construct, then process. */
    static method FromPluginJSON(json: Value) returns (message: PushMessage)
      requires json.Obj? || !Truthy(json)
      ensures fresh(message) && message.Valid() && message.raw == DefaultedRaw(json)
      ensures message.app != null && message.View() == Normalise(DefaultedRaw(json))
    {
      message := new PushMessage(json);
      message.ProcessRaw();
    }

    /** `processRaw()`: sets each text field from the record with `|| null`,
        builds the app status from `foreground` and `coldstart`, and takes a
        truthy payload (otherwise `_payload` keeps its value). */
    method ProcessRaw()
      requires Valid()
      modifies this
      ensures Valid() && raw == old(raw)
      ensures app != null && fresh(app)
      ensures text == Normalise(raw).text && title == Normalise(raw).title && count == Normalise(raw).count
      ensures sound == Normalise(raw).sound && image == Normalise(raw).image
      ensures app.asleep == Normalise(raw).asleep && app.closed == Normalise(raw).closed
      ensures Truthy(Normalise(raw).payload) ==> payloadField == Normalise(raw).payload
      ensures !Truthy(Normalise(raw).payload) ==> payloadField == old(payloadField)
    {
      text := OrNull(Field(Obj(raw), "message"));
      title := OrNull(Field(Obj(raw), "title"));
      count := OrNull(Field(Obj(raw), "count"));
      sound := OrNull(Field(Obj(raw), "sound"));
      image := OrNull(Field(Obj(raw), "image"));
      app := new PushMessageAppStatus();
      var additional := Field(Obj(raw), "additionalData");
      if !Truthy(Field(additional, "foreground")) {
        app.asleep := true;
      }
      if Truthy(Field(additional, "coldstart")) {
        app.closed := true;
      }
      if Truthy(Field(additional, "payload")) {
        payloadField := Field(additional, "payload");
      }
    }

    /** The `payload` getter: the stored payload when truthy, else `{}`; it
        never reads as empty. */
    function Payload(): (r: Value)
      reads this
      ensures Truthy(r)
      ensures Truthy(payloadField) ==> r == payloadField
      ensures !Truthy(payloadField) ==> r == EmptyObject
    {
      Or(payloadField, EmptyObject)
    }

    /** `getRawVersion()`: the kept record, whose `additionalData` is never
        empty. */
    function GetRawVersion(): (r: Value)
      requires Valid()
      reads this
      ensures r.Obj? && r.fields == raw
      ensures Truthy(Field(r, "additionalData"))
    {
      Obj(raw)
    }
  }

  /** After `fromPluginJSON`, the `payload` getter yields the raw payload
      when it is truthy and `{}` otherwise. */
  lemma PayloadOfProcessed(raw: map<string, Value>)
    ensures var p := Field(Field(Obj(raw), "additionalData"), "payload");
      && (Truthy(p) ==> Or(Normalise(raw).payload, EmptyObject) == p)
      && (!Truthy(p) ==> Or(Normalise(raw).payload, EmptyObject) == EmptyObject)
  {
  }
}
