/**
 * The cases the Notification test suite checks, each as a client of the
 * model: the same steps on a notification, and what the test expects as a
 * postcondition. Where a test parses the compiled string and inspects the
 * result, the postcondition says which value the string serializes.
 */
module NotificationScenarios {
  import opened Wrappers
  import opened Json
  import opened Notifications

  /** A notification constructed from a single property. */
  lemma ConstructedOne(p: Property)
    ensures Constructed([p]) == Assigned(Fresh, p)
  {
    ConstructedSnoc([], p);
    assert [] + [p] == [p];
  }

  /** The compiled length the length test expects. */
  lemma LengthCase(aps: string, alert: string, length: string)
    requires aps == "aps" && alert == "alert" && length == "length"
    ensures |Stringify(Obj([Member(aps, Obj([Member(alert, Str(length))]))]))| == 26
  {
    var inner := Obj([Member(alert, Str(length))]);
    assert IsPlainText(length);
    QuotePlain(length);
    SingleMemberLength(alert, Str(length));
    SingleMemberLength(aps, inner);
  }

  /** An object with one member whose key needs no escaping. */
  lemma SingleMemberLength(k: string, v: Value)
    requires IsPlainText(k)
    ensures |Stringify(Obj([Member(k, v)]))| == |k| + |Stringify(v)| + 5
  {
    QuotePlain(k);
    assert StringifyMembers([Member(k, v)]) == Quote(k) + ":" + Stringify(v);
  }

  /** A string of plain characters serializes as itself between quotation marks. */
  lemma QuotedText(s: string, q: string)
    requires IsPlainText(s) && q == "\"" + s + "\""
    ensures Stringify(Str(s)) == q
  {
    QuotePlain(s);
  }

  // The strings the compile tests expect.

  lemma QuotedPayload()
    ensures Stringify(Str("payload")) == "\"payload\""
  {
    QuotedText("payload", "\"payload\"");
  }

  lemma QuotedPayload1()
    ensures Stringify(Str("payload1")) == "\"payload1\""
  {
    QuotedText("payload1", "\"payload1\"");
  }

  lemma QuotedPayload2()
    ensures Stringify(Str("payload2")) == "\"payload2\""
  {
    QuotedText("payload2", "\"payload2\"");
  }

  /** The body the payload test compiles: a payload without aps is output as it is. */
  lemma PlainPayloadJSON(given: seq<Member>)
    requires given == [Member("foo", Str("bar")), Member("baz", Num(1))]
    ensures ToJSON(Fresh.(payload := given)) == Obj(given)
  {
    assert Keys(given) == ["foo", "baz"];
    ToJSONPlainPayload(Fresh.(payload := given));
  }

  /** The body the aps-replacement test compiles: the payload's own aps is dropped. */
  lemma ApsReplacedJSON(given: seq<Member>)
    requires given == [Member("foo", Str("bar")), Member("baz", Num(1)),
                       Member("aps", Obj([Member("badge", Num(1)), Member("alert", Str("Hi there!"))]))]
    ensures WellFormed(Fresh.(payload := given))
    ensures ToJSON(Fresh.(payload := given)) == Obj([Member("foo", Str("bar")), Member("baz", Num(1))])
  {
    FooBazApsValid(given);
    assert given[..2] == [Member("foo", Str("bar")), Member("baz", Num(1))];
    assert Remove(given[2..], ApsKey) == [];
    assert Remove(given[1..], ApsKey) == [given[1]] + Remove(given[2..], ApsKey);
    assert Remove(given, ApsKey) == [given[0]] + Remove(given[1..], ApsKey);
  }

  /** The state the initialization test constructs. */
  lemma InitCase(foo: seq<Member>)
    requires foo == [Member("foo", Str("bar"))]
    ensures Constructed([Priority(5), Topic("io.apn.node"), Payload(foo), Badge(5)])
         == Fresh.(priority := 5, topic := Some("io.apn.node"), payload := foo, aps := [Member("badge", Num(5))])
  {
    var p1 := [Priority(5)];
    var p2 := p1 + [Topic("io.apn.node")];
    var p3 := p2 + [Payload(foo)];
    var p4 := p3 + [Badge(5)];
    ConstructedSnoc([], Priority(5));
    assert [] + [Priority(5)] == p1;
    assert Constructed(p1) == Fresh.(priority := 5);
    ConstructedSnoc(p1, Topic("io.apn.node"));
    assert Constructed(p2) == Fresh.(priority := 5, topic := Some("io.apn.node"));
    ConstructedSnoc(p2, Payload(foo));
    assert Constructed(p3) == Fresh.(priority := 5, topic := Some("io.apn.node"), payload := foo);
    ConstructedSnoc(p3, Badge(5));
    assert p4 == [Priority(5), Topic("io.apn.node"), Payload(foo), Badge(5)];
  }

  /** The body the payload-with-setters test inspects. */
  lemma SettersJSON(given: seq<Member>, aps: seq<Member>)
    requires given == [Member("foo", Str("bar")), Member("baz", Num(1))]
    requires aps == [Member("badge", Num(1)), Member("sound", Str("ping.aiff"))]
    ensures ToJSON(Fresh.(payload := given, aps := aps))
         == Obj([Member("foo", Str("bar")), Member("baz", Num(1)), Member("aps", Obj(aps))])
  {
    var m := Member(ApsKey, Obj(aps));
    assert Keys(given) == ["foo", "baz"];
    SetNewAppends(given, ApsKey, Obj(aps));
    assert given + [m] == [given[0], given[1], m];
  }

  /** The headers left after removeNonChannelRelatedProperties in its test, from the state it builds. */
  lemma ChannelCase(st: NoteState)
    requires st == Fresh.(priority := 5, id := Some("123e4567-e89b-12d3-a456-42665544000"), expiry := 1000,
                          topic := Some("io.apn.node"), collapseId := Some("io.apn.collapse"),
                          requestId := Some("io.apn.request"), channelId := Some("io.apn.channel"),
                          pushType := Some("liveactivity"))
    ensures Headers(ChannelOnly(st))
         == map[ChannelIdHeader := Str("io.apn.channel"), ExpirationHeader := Num(1000), RequestIdHeader := Str("io.apn.request")]
  {
    var after := ChannelOnly(st);
    assert after == Fresh.(expiry := 1000, requestId := Some("io.apn.request"), channelId := Some("io.apn.channel"));
    var h := Headers(after);
    HeaderNamesDistinct();
    assert h.Keys == {ChannelIdHeader, ExpirationHeader, RequestIdHeader};
  }

  /** The body the initialization test compiles. */
  lemma InitJSON(foo: seq<Member>)
    requires foo == [Member("foo", Str("bar"))]
    ensures ToJSON(Fresh.(priority := 5, topic := Some("io.apn.node"), payload := foo, aps := [Member("badge", Num(5))]))
         == Obj([Member("foo", Str("bar")), Member("aps", Obj([Member("badge", Num(5))]))])
  {
    var aps := Member("aps", Obj([Member("badge", Num(5))]));
    assert Keys(foo) == ["foo"];
    SetNewAppends(foo, ApsKey, aps.value);
    assert foo + [aps] == [foo[0], aps];
  }

  /** The state the payload-with-setters test builds. */
  lemma SettersCase(given: seq<Member>, badge: Property, sound: Property)
    requires given == [Member("foo", Str("bar")), Member("baz", Num(1))]
    requires badge == Badge(1) && sound == Sound("ping.aiff")
    ensures Assigned(Assigned(Fresh.(payload := given), badge), sound)
         == Fresh.(payload := given, aps := [Member("badge", Num(1)), Member("sound", Str("ping.aiff"))])
  {
    var first := [Member("badge", Num(1))];
    assert Keys(first) == ["badge"];
    SetNewAppends(first, "sound", Str("ping.aiff"));
  }

  // The payload objects the tests hand over have no key twice.

  lemma FooValid(foo: seq<Member>)
    requires foo == [Member("foo", Str("bar"))]
    ensures ValidObject(foo)
  {
  }

  lemma FooBazValid(given: seq<Member>)
    requires given == [Member("foo", Str("bar")), Member("baz", Num(1))]
    ensures ValidObject(given)
  {
    assert UniqueKeys(given);
  }

  lemma FooBazApsValid(given: seq<Member>)
    requires given == [Member("foo", Str("bar")), Member("baz", Num(1)),
                       Member("aps", Obj([Member("badge", Num(1)), Member("alert", Str("Hi there!"))]))]
    ensures ValidObject(given)
  {
    assert UniqueKeys(given);
    assert ValidValue(given[2].value) by {
      assert UniqueKeys(given[2].value.members);
    }
  }

  // constructor

  method AcceptsInitializationValues()
    returns (payload: seq<Member>, priority: int, topic: Option<string>, compiled: string)
    ensures payload == [Member("foo", Str("bar"))]
    ensures priority == 5 && topic == Some("io.apn.node")
    ensures compiled == Stringify(Obj([Member("foo", Str("bar")), Member("aps", Obj([Member("badge", Num(5))]))]))
  {
    var foo := [Member("foo", Str("bar"))];
    var props := [Priority(5), Topic("io.apn.node"), Payload(foo), Badge(5)];
    FooValid(foo);
    assert ValidProperty(props[2]);
    var note := new Notification(props);
    InitCase(foo);
    InitJSON(foo);
    var st := note.State();
    payload, priority, topic := note.payload, note.priority, note.topic;
    compiled := note.Compile();
  }

  method NoInitializationValues() returns (compiled: string)
    ensures compiled == "{}"
  {
    var note := new Notification([]);
    compiled := note.Compile();
  }

  // rawPayload

  method RawPayloadIsOutput() returns (raw: Option<Value>, compiled: string)
    ensures raw == Some(Obj([Member("some", Str("payload"))]))
    ensures compiled == Stringify(Obj([Member("some", Str("payload"))]))
  {
    var given := Obj([Member("some", Str("payload"))]);
    var note := new Notification([RawPayload(given)]);
    ConstructedOne(RawPayload(given));
    raw := note.rawPayload;
    compiled := note.Compile();
  }

  method RawPayloadNotClobberedByAps() returns (raw: Option<Value>, compiled: string)
    ensures raw == Some(Obj([Member("some", Str("payload")), Member("aps", Obj([Member("alert", Str("Foo"))]))]))
    ensures compiled == Stringify(Obj([Member("some", Str("payload")), Member("aps", Obj([Member("alert", Str("Foo"))]))]))
  {
    var given := Obj([Member("some", Str("payload")), Member("aps", Obj([Member("alert", Str("Foo"))]))]);
    var note := new Notification([RawPayload(given)]);
    ConstructedOne(RawPayload(given));
    note.Assign(AlertBody("Bar"));
    raw := note.rawPayload;
    compiled := note.Compile();
  }

  method RawPayloadOverMdm() returns (raw: Option<Value>, compiled: string)
    ensures raw == Some(Obj([Member("some", Str("payload"))]))
    ensures compiled == Stringify(Obj([Member("some", Str("payload"))]))
  {
    var given := Obj([Member("some", Str("payload"))]);
    var note := new Notification([RawPayload(given)]);
    ConstructedOne(RawPayload(given));
    note.Assign(Mdm("abcd"));
    raw := note.rawPayload;
    compiled := note.Compile();
  }

  method RawPayloadFromConstructor() returns (compiled: string)
    ensures compiled == Stringify(Obj([Member("foo", Str("bar")), Member("baz", Num(1)),
                                       Member("aps", Obj([Member("badge", Num(1)), Member("alert", Str("Hi there!"))]))]))
  {
    var given := Obj([Member("foo", Str("bar")), Member("baz", Num(1)),
                      Member("aps", Obj([Member("badge", Num(1)), Member("alert", Str("Hi there!"))]))]);
    var note := new Notification([RawPayload(given)]);
    ConstructedOne(RawPayload(given));
    compiled := note.Compile();
  }

  // payload

  method PayloadWithoutAps() returns (compiled: string)
    ensures compiled == Stringify(Obj([Member("foo", Str("bar")), Member("baz", Num(1))]))
  {
    var note := new Notification([]);
    var given := [Member("foo", Str("bar")), Member("baz", Num(1))];
    FooBazValid(given);
    note.payload := given;
    var st := note.State();
    assert st == Fresh.(payload := given);
    PlainPayloadJSON(given);
    compiled := note.Compile();
  }

  method SettersLeavePayloadAlone() returns (payload: seq<Member>, body: Value)
    ensures payload == [Member("foo", Str("bar")), Member("baz", Num(1))]
    ensures body == Obj([Member("foo", Str("bar")), Member("baz", Num(1)),
                         Member("aps", Obj([Member("badge", Num(1)), Member("sound", Str("ping.aiff"))]))])
  {
    var given := [Member("foo", Str("bar")), Member("baz", Num(1))];
    var note := new Notification([]);
    FooBazValid(given);
    note.payload := given;
    note.Assign(Badge(1));
    note.Assign(Sound("ping.aiff"));
    SettersCase(given, Badge(1), Sound("ping.aiff"));
    var st := note.State();
    assert st == Fresh.(payload := given, aps := [Member("badge", Num(1)), Member("sound", Str("ping.aiff"))]);
    SettersJSON(given, st.aps);
    body := ToJSON(st);
    payload := note.payload;
  }

  method PayloadApsIsReplaced() returns (compiled: string)
    ensures compiled == Stringify(Obj([Member("foo", Str("bar")), Member("baz", Num(1))]))
  {
    var note := new Notification([]);
    var given := [Member("foo", Str("bar")), Member("baz", Num(1)),
                  Member("aps", Obj([Member("badge", Num(1)), Member("alert", Str("Hi there!"))]))];
    note.payload := given;
    var st := note.State();
    assert st == Fresh.(payload := given);
    ApsReplacedJSON(given);
    compiled := note.Compile();
  }

  // length

  method LengthOfAlert() returns (n: nat)
    ensures n == 26
  {
    var note := new Notification([]);
    note.Assign(Alert("length"));
    var st := note.State();
    assert st == Fresh.(aps := [Member("alert", Str("length"))]);
    assert ToJSON(st) == Obj([Member("aps", Obj([Member("alert", Str("length"))]))]);
    n := note.Length();
    LengthCase("aps", "alert", "length");
  }

  // addPushTypeToPayloadIfNeeded

  method AddsLiveActivityPushType() returns (payload: seq<Member>)
    ensures payload == [Member("push-type", Str("liveactivity"))]
  {
    var note := new Notification([]);
    note.AddPushTypeToPayloadIfNeeded();
    payload := note.payload;
  }

  method KeepsExistingPushType() returns (payload: seq<Member>)
    ensures payload == [Member("push-type", Str("alert"))]
  {
    var note := new Notification([]);
    SetValid(note.payload, "push-type", Str("alert"));
    note.payload := Set(note.payload, "push-type", Str("alert"));
    note.AddPushTypeToPayloadIfNeeded();
    payload := note.payload;
  }

  method NoPushTypeWithRawPayload() returns (raw: Option<Value>, compiled: string)
    ensures raw == Some(Obj([Member("some", Str("payload"))]))
    ensures compiled == Stringify(Obj([Member("some", Str("payload"))]))
  {
    var given := Obj([Member("some", Str("payload"))]);
    var note := new Notification([RawPayload(given)]);
    ConstructedOne(RawPayload(given));
    note.AddPushTypeToPayloadIfNeeded();
    raw := note.rawPayload;
    compiled := note.Compile();
  }

  // removeNonChannelRelatedProperties

  method ChannelHeadersOnly() returns (headers: map<string, Value>)
    ensures headers == map[ChannelIdHeader := Str("io.apn.channel"),
                           ExpirationHeader := Num(1000),
                           RequestIdHeader := Str("io.apn.request")]
  {
    var note := new Notification([]);
    note.priority := 5;
    note.id := Some("123e4567-e89b-12d3-a456-42665544000");
    note.pushType := Some("alert");
    note.expiry := 1000;
    note.topic := Some("io.apn.node");
    note.collapseId := Some("io.apn.collapse");
    note.requestId := Some("io.apn.request");
    note.channelId := Some("io.apn.channel");
    note.pushType := Some("liveactivity");
    var before := note.State();
    ChannelCase(before);
    note.RemoveNonChannelRelatedProperties();
    headers := Headers(note.State());
  }

  // headers

  method NoHeadersByDefault() returns (headers: map<string, Value>)
    ensures headers == map[]
  {
    var note := new Notification([]);
    headers := Headers(note.State());
  }

  method PriorityHeaderWhenNonDefault() returns (headers: map<string, Value>)
    ensures PriorityHeader in headers && headers[PriorityHeader] == Num(5)
  {
    var note := new Notification([]);
    note.priority := 5;
    headers := Headers(note.State());
  }

  method IdHeaderWhenSet() returns (headers: map<string, Value>)
    ensures IdHeader in headers && headers[IdHeader] == Str("123e4567-e89b-12d3-a456-42665544000")
  {
    var note := new Notification([]);
    note.id := Some("123e4567-e89b-12d3-a456-42665544000");
    headers := Headers(note.State());
  }

  method ExpirationHeaderWhenPositive() returns (headers: map<string, Value>)
    ensures ExpirationHeader in headers && headers[ExpirationHeader] == Num(1000)
  {
    var note := new Notification([]);
    note.expiry := 1000;
    headers := Headers(note.State());
  }

  method ExpirationHeaderWhenZero() returns (headers: map<string, Value>)
    ensures ExpirationHeader in headers && headers[ExpirationHeader] == Num(0)
  {
    var note := new Notification([]);
    note.expiry := 0;
    headers := Headers(note.State());
  }

  method NoExpirationHeaderWhenNegative() returns (headers: map<string, Value>)
    ensures ExpirationHeader !in headers
  {
    var note := new Notification([]);
    note.expiry := -1;
    headers := Headers(note.State());
  }

  method TopicHeaderWhenSet() returns (headers: map<string, Value>)
    ensures TopicHeader in headers && headers[TopicHeader] == Str("io.apn.node")
  {
    var note := new Notification([]);
    note.topic := Some("io.apn.node");
    headers := Headers(note.State());
  }

  method CollapseIdHeaderWhenSet() returns (headers: map<string, Value>)
    ensures CollapseIdHeader in headers && headers[CollapseIdHeader] == Str("io.apn.collapse")
  {
    var note := new Notification([]);
    note.collapseId := Some("io.apn.collapse");
    headers := Headers(note.State());
  }

  method RequestIdHeaderWhenSet() returns (headers: map<string, Value>)
    ensures RequestIdHeader in headers && headers[RequestIdHeader] == Str("io.apn.request")
  {
    var note := new Notification([]);
    note.requestId := Some("io.apn.request");
    headers := Headers(note.State());
  }

  method ChannelIdHeaderWhenSet() returns (headers: map<string, Value>)
    ensures ChannelIdHeader in headers && headers[ChannelIdHeader] == Str("io.apn.channel")
  {
    var note := new Notification([]);
    note.channelId := Some("io.apn.channel");
    headers := Headers(note.State());
  }

  method PushTypeHeaderWhenSet() returns (headers: map<string, Value>)
    ensures PushTypeHeader in headers && headers[PushTypeHeader] == Str("alert")
  {
    var note := new Notification([]);
    note.pushType := Some("alert");
    headers := Headers(note.State());
  }

  // compile; the value the tests substitute for toJSON() is given as the raw payload

  method CompilesJSONPayload() returns (compiled: string)
    ensures compiled == "\"payload\""
  {
    var note := new Notification([RawPayload(Str("payload"))]);
    ConstructedOne(RawPayload(Str("payload")));
    compiled := note.Compile();
    QuotedPayload();
  }

  method ReturnsJSONPayload() returns (compiled: string)
    ensures compiled == "{}"
  {
    var note := new Notification([RawPayload(Obj([]))]);
    ConstructedOne(RawPayload(Obj([])));
    compiled := note.Compile();
  }

  method MemoizesJSONPayload() returns (compiled: string)
    ensures compiled == "\"payload1\""
  {
    var note := new Notification([RawPayload(Str("payload1"))]);
    ConstructedOne(RawPayload(Str("payload1")));
    var first := note.Compile();
    note.Assign(RawPayload(Str("payload2")));
    compiled := note.Compile();
    QuotedPayload1();
  }

  method RecompilesWhenReset() returns (compiled: string)
    ensures compiled == "\"payload2\""
  {
    var note := new Notification([RawPayload(Str("payload1"))]);
    ConstructedOne(RawPayload(Str("payload1")));
    var first := note.Compile();
    note.Assign(RawPayload(Str("payload2")));
    var st := note.State();
    assert st.rawPayload == Some(Str("payload2"));
    note.compiled := false;
    assert note.State() == st;
    compiled := note.Compile();
    assert compiled == Stringify(ToJSON(st));
    QuotedPayload2();
  }
}
