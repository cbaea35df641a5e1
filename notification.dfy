/**
 * An outbound push notification: its mutable message state, the JSON body
 * (toJSON, and compile with its memo), the header map, and the two
 * shaping operations.
 *
 * The operations that only compute (toJSON, headers, and the state after an
 * assignment or a shaping operation) are functions of a `NoteState` value;
 * the class `Notification` holds the same fields as mutable state, and its
 * methods are specified by those functions.
 */
module Notifications {
  import opened Wrappers
  import opened Json

  /** The priority a notification starts with; it produces no apns-priority header. */
  const DefaultPriority: int := 10
  /** The expiry a notification starts with; a negative expiry produces no apns-expiration header. */
  const DefaultExpiry: int := -1
  /** The push type added to a payload that has none. */
  const DefaultPushType: string := "liveactivity"

  const ApsKey: string := "aps"
  const PushTypeKey: string := "push-type"

  const PriorityHeader: string := "apns-priority"
  const IdHeader: string := "apns-id"
  const ExpirationHeader: string := "apns-expiration"
  const TopicHeader: string := "apns-topic"
  const CollapseIdHeader: string := "apns-collapse-id"
  const RequestIdHeader: string := "apns-request-id"
  const ChannelIdHeader: string := "apns-channel-id"
  const PushTypeHeader: string := "apns-push-type"

  const HeaderNames: set<string> :=
    {PriorityHeader, IdHeader, ExpirationHeader, TopicHeader,
     CollapseIdHeader, RequestIdHeader, ChannelIdHeader, PushTypeHeader}

  /** The headers a delivery channel accepts. */
  const ChannelHeaders: set<string> := {ChannelIdHeader, ExpirationHeader, RequestIdHeader}

  /** Everything a notification holds except its compile memo. */
  datatype NoteState = NoteState(
    payload: seq<Member>,     // application payload; its `aps` key is replaced in the output
    rawPayload: Option<Value>, // when set, the whole output
    aps: seq<Member>,          // the aps keys the accessors set, in the order they were first set
    mdm: Option<string>,
    priority: int,
    id: Option<string>,
    expiry: int,
    topic: Option<string>,
    collapseId: Option<string>,
    requestId: Option<string>,
    channelId: Option<string>,
    pushType: Option<string>)

  /** A notification constructed without initialization values. */
  const Fresh: NoteState :=
    NoteState([], None, [], None, DefaultPriority, None, DefaultExpiry, None, None, None, None, None)

  /**
   * The state a JavaScript notification can be in: the payload, the raw
   * payload and the aps object are objects with no key twice at any depth.
   */
  predicate WellFormed(st: NoteState)
  {
    ValidObject(st.payload) && ValidObject(st.aps) &&
    (st.rawPayload.Some? ==> ValidValue(st.rawPayload.value))
  }

  // Assignments: `note.key = value`, and the constructor copying its argument's keys

  datatype Property =
    | Payload(payload: seq<Member>)
    | RawPayload(raw: Value)
    | Alert(alert: string)
    | AlertBody(body: string)
    | Badge(badge: int)
    | Sound(sound: string)
    | Mdm(mdm: string)
    | Priority(priority: int)
    | Id(id: string)
    | Expiry(expiry: int)
    | Topic(topic: string)
    | CollapseId(collapseId: string)
    | RequestId(requestId: string)
    | ChannelId(channelId: string)
    | PushType(pushType: string)

  /** An assigned object value is one a JavaScript program can hold. */
  predicate ValidProperty(p: Property)
  {
    match p
    case Payload(o) => ValidObject(o)
    case RawPayload(v) => ValidValue(v)
    case _ => true
  }

  /** The slots an assignment can write: a field, or a key of the aps object. */
  datatype Slot =
    | PayloadSlot | RawPayloadSlot | ApsSlot(key: string) | MdmSlot | PrioritySlot | IdSlot
    | ExpirySlot | TopicSlot | CollapseIdSlot | RequestIdSlot | ChannelIdSlot | PushTypeSlot

  /** The slot an assignment writes; alert and alertBody both write the aps alert. */
  function Target(p: Property): Slot
  {
    match p
    case Payload(_) => PayloadSlot
    case RawPayload(_) => RawPayloadSlot
    case Alert(_) => ApsSlot("alert")
    case AlertBody(_) => ApsSlot("alert")
    case Badge(_) => ApsSlot("badge")
    case Sound(_) => ApsSlot("sound")
    case Mdm(_) => MdmSlot
    case Priority(_) => PrioritySlot
    case Id(_) => IdSlot
    case Expiry(_) => ExpirySlot
    case Topic(_) => TopicSlot
    case CollapseId(_) => CollapseIdSlot
    case RequestId(_) => RequestIdSlot
    case ChannelId(_) => ChannelIdSlot
    case PushType(_) => PushTypeSlot
  }

  /** The slot p writes holds p's value in st. */
  predicate Holds(st: NoteState, p: Property)
  {
    match p
    case Payload(o) => st.payload == o
    case RawPayload(v) => st.rawPayload == Some(v)
    case Alert(t) => Get(st.aps, "alert") == Some(Str(t))
    case AlertBody(t) => Get(st.aps, "alert") == Some(Str(t))
    case Badge(n) => Get(st.aps, "badge") == Some(Num(n))
    case Sound(s) => Get(st.aps, "sound") == Some(Str(s))
    case Mdm(m) => st.mdm == Some(m)
    case Priority(n) => st.priority == n
    case Id(s) => st.id == Some(s)
    case Expiry(n) => st.expiry == n
    case Topic(s) => st.topic == Some(s)
    case CollapseId(s) => st.collapseId == Some(s)
    case RequestId(s) => st.requestId == Some(s)
    case ChannelId(s) => st.channelId == Some(s)
    case PushType(s) => st.pushType == Some(s)
  }

  /** a and b hold the same in slot t. */
  predicate Agree(a: NoteState, b: NoteState, t: Slot)
  {
    match t
    case PayloadSlot => a.payload == b.payload
    case RawPayloadSlot => a.rawPayload == b.rawPayload
    case ApsSlot(k) => Get(a.aps, k) == Get(b.aps, k)
    case MdmSlot => a.mdm == b.mdm
    case PrioritySlot => a.priority == b.priority
    case IdSlot => a.id == b.id
    case ExpirySlot => a.expiry == b.expiry
    case TopicSlot => a.topic == b.topic
    case CollapseIdSlot => a.collapseId == b.collapseId
    case RequestIdSlot => a.requestId == b.requestId
    case ChannelIdSlot => a.channelId == b.channelId
    case PushTypeSlot => a.pushType == b.pushType
  }

  /**
   * The state after one assignment. Plain fields are stored as given; the aps
   * accessors write their key of the aps object (alertBody writes the alert
   * text, as alert does).
   */
  function Assigned(st: NoteState, p: Property): (r: NoteState)
    ensures Holds(r, p)
  {
    match p
    case Payload(o) => st.(payload := o)
    case RawPayload(v) => st.(rawPayload := Some(v))
    case Alert(t) => st.(aps := Set(st.aps, "alert", Str(t)))
    case AlertBody(t) => st.(aps := Set(st.aps, "alert", Str(t)))
    case Badge(n) => st.(aps := Set(st.aps, "badge", Num(n)))
    case Sound(s) => st.(aps := Set(st.aps, "sound", Str(s)))
    case Mdm(m) => st.(mdm := Some(m))
    case Priority(n) => st.(priority := n)
    case Id(s) => st.(id := Some(s))
    case Expiry(n) => st.(expiry := n)
    case Topic(s) => st.(topic := Some(s))
    case CollapseId(s) => st.(collapseId := Some(s))
    case RequestId(s) => st.(requestId := Some(s))
    case ChannelId(s) => st.(channelId := Some(s))
    case PushType(s) => st.(pushType := Some(s))
  }

  /** An assignment leaves every slot but its own as it was. */
  lemma AssignedFrame(st: NoteState, p: Property, t: Slot)
    requires t != Target(p)
    ensures Agree(st, Assigned(st, p), t)
  {
  }

  lemma AssignedWellFormed(st: NoteState, p: Property)
    requires WellFormed(st) && ValidProperty(p)
    ensures WellFormed(Assigned(st, p))
  {
    match p
    case Alert(t) => SetValid(st.aps, "alert", Str(t));
    case AlertBody(t) => SetValid(st.aps, "alert", Str(t));
    case Badge(n) => SetValid(st.aps, "badge", Num(n));
    case Sound(s) => SetValid(st.aps, "sound", Str(s));
    case _ =>
  }

  /** The state the constructor leaves: each of its properties assigned in turn to a fresh notification. */
  function Constructed(props: seq<Property>): (r: NoteState)
    ensures props != [] ==> Holds(r, props[|props| - 1])
  {
    if props == [] then Fresh
    else Assigned(Constructed(props[..|props| - 1]), props[|props| - 1])
  }

  /** The constructor stores a property as given unless a later one writes the same slot. */
  lemma {:induction false} ConstructedStores(props: seq<Property>, i: nat)
    requires i < |props|
    requires forall j :: i < j < |props| ==> Target(props[j]) != Target(props[i])
    ensures Holds(Constructed(props), props[i])
  {
    var last := |props| - 1;
    var front := props[..last];
    if i != last {
      var st, p := Constructed(front), props[last];
      assert Constructed(props) == Assigned(st, p);
      assert forall j :: i < j < |front| ==> front[j] == props[j];
      ConstructedStores(front, i);
      AssignedFrame(st, p, Target(props[i]));
      HoldsAcrossAgree(st, Assigned(st, p), props[i]);
    }
  }

  /** Constructing with one more property is assigning it afterwards. */
  lemma ConstructedSnoc(props: seq<Property>, p: Property)
    ensures Constructed(props + [p]) == Assigned(Constructed(props), p)
  {
    assert (props + [p])[..|props|] == props;
  }

  /** A slot no property writes keeps its fresh value. */
  lemma {:induction false} ConstructedUntouched(props: seq<Property>, t: Slot)
    requires forall j :: 0 <= j < |props| ==> Target(props[j]) != t
    ensures Agree(Fresh, Constructed(props), t)
  {
    if props != [] {
      var last := |props| - 1;
      var front := props[..last];
      assert forall j :: 0 <= j < |front| ==> front[j] == props[j];
      ConstructedUntouched(front, t);
      AssignedFrame(Constructed(front), props[last], t);
      AgreeTransitive(Fresh, Constructed(front), Constructed(props), t);
    }
  }

  lemma {:induction false} ConstructedWellFormed(props: seq<Property>)
    requires forall i :: 0 <= i < |props| ==> ValidProperty(props[i])
    ensures WellFormed(Constructed(props))
  {
    if props != [] {
      assert forall i :: 0 <= i < |props| - 1 ==> props[..|props| - 1][i] == props[i];
      ConstructedWellFormed(props[..|props| - 1]);
      AssignedWellFormed(Constructed(props[..|props| - 1]), props[|props| - 1]);
    }
  }

  lemma HoldsAcrossAgree(a: NoteState, b: NoteState, p: Property)
    requires Holds(a, p) && Agree(a, b, Target(p))
    ensures Holds(b, p)
  {
  }

  lemma AgreeTransitive(a: NoteState, b: NoteState, c: NoteState, t: Slot)
    requires Agree(a, b, t) && Agree(b, c, t)
    ensures Agree(a, c, t)
  {
  }

  // toJSON

  /**
   * The value JSON.stringify serializes: the raw payload when one is set;
   * otherwise a copy of the payload whose `aps` key is replaced by the aps
   * object the accessors built, or removed when they set nothing.
   */
  function ToJSON(st: NoteState): (v: Value)
    ensures st.rawPayload.Some? ==> v == st.rawPayload.value
    ensures st.rawPayload.None? ==> v.Obj?
    ensures st.rawPayload.None? ==> forall k :: k != ApsKey ==> Get(v.members, k) == Get(st.payload, k)
    ensures st.rawPayload.None? ==> Get(v.members, ApsKey) == if st.aps == [] then None else Some(Obj(st.aps))
  {
    match st.rawPayload
    case Some(raw) => raw
    case None =>
      if st.aps == [] then Obj(Remove(st.payload, ApsKey))
      else Obj(Set(st.payload, ApsKey, Obj(st.aps)))
  }

  /** The output is a value a JavaScript program can hold: no key twice at any depth. */
  lemma ToJSONValid(st: NoteState)
    requires WellFormed(st)
    ensures ValidValue(ToJSON(st))
  {
    if st.rawPayload.None? {
      if st.aps == [] { RemoveValid(st.payload, ApsKey); } else { SetValid(st.payload, ApsKey, Obj(st.aps)); }
    }
  }

  /** With no aps key in the payload and no aps accessor used, the output is the payload itself. */
  lemma ToJSONPlainPayload(st: NoteState)
    requires st.rawPayload.None? && st.aps == [] && ApsKey !in Keys(st.payload)
    ensures ToJSON(st) == Obj(st.payload)
  {
    RemoveAbsent(st.payload, ApsKey);
  }

  /** No assignment other than to rawPayload itself changes the output while a raw payload is set. */
  lemma RawPayloadWins(st: NoteState, p: Property)
    requires st.rawPayload.Some? && !p.RawPayload?
    ensures Assigned(st, p).rawPayload == st.rawPayload
    ensures ToJSON(Assigned(st, p)) == ToJSON(st) == st.rawPayload.value
  {
    AssignedFrame(st, p, RawPayloadSlot);
  }

  // headers

  /** A string field that JavaScript treats as set: present and not empty. */
  predicate IsSet(field: Option<string>)
  {
    field.Some? && field.value != ""
  }

  lemma HeaderNamesDistinct()
    ensures PriorityHeader !in {IdHeader, ExpirationHeader, TopicHeader, CollapseIdHeader, RequestIdHeader, ChannelIdHeader, PushTypeHeader}
    ensures IdHeader !in {ExpirationHeader, TopicHeader, CollapseIdHeader, RequestIdHeader, ChannelIdHeader, PushTypeHeader}
    ensures ExpirationHeader !in {TopicHeader, CollapseIdHeader, RequestIdHeader, ChannelIdHeader, PushTypeHeader}
    ensures TopicHeader !in {CollapseIdHeader, RequestIdHeader, ChannelIdHeader, PushTypeHeader}
    ensures CollapseIdHeader !in {RequestIdHeader, ChannelIdHeader, PushTypeHeader}
    ensures RequestIdHeader !in {ChannelIdHeader, PushTypeHeader}
    ensures ChannelIdHeader != PushTypeHeader
  {
  }

  /** The value of header `name`, or None when its rule leaves it out. */
  function HeaderEntry(st: NoteState, name: string): Option<Value>
  {
    if name == PriorityHeader then
      if st.priority != DefaultPriority then Some(Num(st.priority)) else None
    else if name == IdHeader then StringHeader(st.id)
    else if name == ExpirationHeader then
      if st.expiry >= 0 then Some(Num(st.expiry)) else None
    else if name == TopicHeader then StringHeader(st.topic)
    else if name == CollapseIdHeader then StringHeader(st.collapseId)
    else if name == RequestIdHeader then StringHeader(st.requestId)
    else if name == ChannelIdHeader then StringHeader(st.channelId)
    else if name == PushTypeHeader then StringHeader(st.pushType)
    else None
  }

  function StringHeader(field: Option<string>): (r: Option<Value>)
  {
    if IsSet(field) then Some(Str(field.value)) else None
  }

  /** The header map; each header is included by its own rule, independently of the others. */
  function Headers(st: NoteState): (h: map<string, Value>)
    ensures h.Keys <= HeaderNames
    ensures PriorityHeader in h <==> st.priority != DefaultPriority
    ensures IdHeader in h <==> IsSet(st.id)
    ensures ExpirationHeader in h <==> st.expiry >= 0
    ensures TopicHeader in h <==> IsSet(st.topic)
    ensures CollapseIdHeader in h <==> IsSet(st.collapseId)
    ensures RequestIdHeader in h <==> IsSet(st.requestId)
    ensures ChannelIdHeader in h <==> IsSet(st.channelId)
    ensures PushTypeHeader in h <==> IsSet(st.pushType)
    ensures PriorityHeader in h ==> h[PriorityHeader] == Num(st.priority)
    ensures IdHeader in h ==> h[IdHeader] == Str(st.id.value)
    ensures ExpirationHeader in h ==> h[ExpirationHeader] == Num(st.expiry)
    ensures TopicHeader in h ==> h[TopicHeader] == Str(st.topic.value)
    ensures CollapseIdHeader in h ==> h[CollapseIdHeader] == Str(st.collapseId.value)
    ensures RequestIdHeader in h ==> h[RequestIdHeader] == Str(st.requestId.value)
    ensures ChannelIdHeader in h ==> h[ChannelIdHeader] == Str(st.channelId.value)
    ensures PushTypeHeader in h ==> h[PushTypeHeader] == Str(st.pushType.value)
  {
    HeaderNamesDistinct();
    map name | name in HeaderNames && HeaderEntry(st, name).Some? :: HeaderEntry(st, name).value
  }

  // Shaping operations

  /**
   * addPushTypeToPayloadIfNeeded: a payload without a push-type gets the
   * default one; a raw payload or an existing push-type is left alone.
   */
  function WithDefaultPushType(st: NoteState): (r: NoteState)
    ensures st.rawPayload.Some? || PushTypeKey in Keys(st.payload) ==> r == st
    ensures st.rawPayload.None? && PushTypeKey !in Keys(st.payload) ==>
              r == st.(payload := st.payload + [Member(PushTypeKey, Str(DefaultPushType))])
  {
    if st.rawPayload.None? && Get(st.payload, PushTypeKey).None? then
      SetNewAppends(st.payload, PushTypeKey, Str(DefaultPushType));
      st.(payload := Set(st.payload, PushTypeKey, Str(DefaultPushType)))
    else st
  }

  /** Adding the default push type twice is adding it once. */
  lemma WithDefaultPushTypeIdempotent(st: NoteState)
    ensures WithDefaultPushType(WithDefaultPushType(st)) == WithDefaultPushType(st)
  {
    var once := WithDefaultPushType(st);
    if once != st {
      KeysSnoc(st.payload, Member(PushTypeKey, Str(DefaultPushType)));
    }
  }

  /**
   * removeNonChannelRelatedProperties: priority back to its default, and id,
   * topic, collapseId and pushType unset.
   */
  function ChannelOnly(st: NoteState): NoteState
  {
    st.(priority := DefaultPriority, id := None, topic := None, collapseId := None, pushType := None)
  }

  /** Only the channel headers survive, with their values; the body is unchanged. */
  lemma ChannelOnlyHeaders(st: NoteState)
    ensures forall k :: k in Headers(ChannelOnly(st)) <==> k in Headers(st) && k in ChannelHeaders
    ensures forall k :: k in Headers(ChannelOnly(st)) ==> Headers(ChannelOnly(st))[k] == Headers(st)[k]
    ensures ToJSON(ChannelOnly(st)) == ToJSON(st)
  {
  }

  // The object

  class Notification {
    var payload: seq<Member>
    var rawPayload: Option<Value>
    var aps: seq<Member>
    var mdm: Option<string>
    var priority: int
    var id: Option<string>
    var expiry: int
    var topic: Option<string>
    var collapseId: Option<string>
    var requestId: Option<string>
    var channelId: Option<string>
    var pushType: Option<string>
    /** Whether compiledJSON is to be returned by compile(); callers reset it to force a recompile. */
    var compiled: bool
    var compiledJSON: string

    /** The message state, as one value. */
    function State(): NoteState
      reads this
    {
      NoteState(payload, rawPayload, aps, mdm, priority, id, expiry,
                topic, collapseId, requestId, channelId, pushType)
    }

    predicate Valid()
      reads this
    {
      WellFormed(State())
    }

    /** `new Notification(properties)`: defaults, then each property assigned in turn. */
    constructor (props: seq<Property>)
      requires forall i :: 0 <= i < |props| ==> ValidProperty(props[i])
      ensures Valid()
      ensures State() == Constructed(props)
      ensures !compiled
    {
      payload, rawPayload, aps, mdm := [], None, [], None;
      priority, id, expiry := DefaultPriority, None, DefaultExpiry;
      topic, collapseId, requestId, channelId, pushType := None, None, None, None, None;
      compiled, compiledJSON := false, "";
      new;
      var i := 0;
      while i < |props|
        invariant 0 <= i <= |props|
        invariant State() == Constructed(props[..i])
        invariant !compiled
      {
        Update(Assigned(State(), props[i]));
        assert props[..i + 1][..i] == props[..i];
        i := i + 1;
      }
      assert props[..|props|] == props;
      ConstructedWellFormed(props);
    }

    /** `note[key] = value`; the memo is left as it is. */
    method Assign(p: Property)
      requires Valid() && ValidProperty(p)
      modifies this
      ensures Valid()
      ensures State() == Assigned(old(State()), p)
      ensures compiled == old(compiled) && compiledJSON == old(compiledJSON)
    {
      AssignedWellFormed(State(), p);
      Update(Assigned(State(), p));
    }

    /** Stores every field of st; the memo is left as it is. */
    method Update(st: NoteState)
      modifies this
      ensures State() == st
      ensures compiled == old(compiled) && compiledJSON == old(compiledJSON)
    {
      UpdateMessage(st);
      UpdateDelivery(st);
    }

    /** Stores the fields that make up the body. */
    method UpdateMessage(st: NoteState)
      modifies this`payload, this`rawPayload, this`aps, this`mdm
      ensures payload == st.payload && rawPayload == st.rawPayload && aps == st.aps && mdm == st.mdm
    {
      payload, rawPayload, aps, mdm := st.payload, st.rawPayload, st.aps, st.mdm;
    }

    /** Stores the fields the headers are made from. */
    method UpdateDelivery(st: NoteState)
      modifies this`priority, this`id, this`expiry, this`topic, this`collapseId, this`requestId, this`channelId, this`pushType
      ensures priority == st.priority && id == st.id && expiry == st.expiry && topic == st.topic
      ensures collapseId == st.collapseId && requestId == st.requestId && channelId == st.channelId
      ensures pushType == st.pushType
    {
      priority, id, expiry, topic := st.priority, st.id, st.expiry, st.topic;
      collapseId, requestId, channelId, pushType := st.collapseId, st.requestId, st.channelId, st.pushType;
    }

    /**
     * The serialized body, memoized: while `compiled` holds, the cached string
     * is returned whatever the fields now say.
     */
    method Compile() returns (s: string)
      requires Valid()
      modifies this`compiled, this`compiledJSON
      ensures Valid()
      ensures !old(compiled) ==> exists v :: ValidValue(v) && s == Stringify(v)
      ensures s == if old(compiled) then old(compiledJSON) else Stringify(ToJSON(State()))
      ensures compiled && compiledJSON == s
    {
      ToJSONValid(State());
      if !compiled {
        compiledJSON := Stringify(ToJSON(State()));
        compiled := true;
      }
      s := compiledJSON;
    }

    /** The length of the compiled body (compiling it if need be). */
    method Length() returns (n: nat)
      requires Valid()
      modifies this`compiled, this`compiledJSON
      ensures Valid()
      ensures compiled && n == |compiledJSON|
      ensures compiledJSON == if old(compiled) then old(compiledJSON) else Stringify(ToJSON(State()))
    {
      var s := Compile();
      n := |s|;
    }

    method AddPushTypeToPayloadIfNeeded()
      requires Valid()
      modifies this`payload
      ensures Valid()
      ensures State() == WithDefaultPushType(old(State()))
    {
      if rawPayload.None? && Get(payload, PushTypeKey).None? {
        SetValid(payload, PushTypeKey, Str(DefaultPushType));
        payload := Set(payload, PushTypeKey, Str(DefaultPushType));
      }
    }

    method RemoveNonChannelRelatedProperties()
      requires Valid()
      modifies this`priority, this`id, this`topic, this`collapseId, this`pushType
      ensures Valid()
      ensures State() == ChannelOnly(old(State()))
    {
      ghost var before := State();
      priority := DefaultPriority;
      id, topic, collapseId, pushType := None, None, None, None;
      assert State() == ChannelOnly(before);
    }
  }
}
