/** The command reader (`ApiClient`): each chunk received from the logging
    program is trimmed, classified by its `<CMD>` prefix and its
    `<CALLTABEVENT>` marker, and a call-tab event hands its latitude and
    longitude to the coordinate dispatcher. */
module Api {
  import opened Text
  import opened Mapping
  import opened Logging
  import opened Net
  import opened TagMatch
  import opened HamClock

  const CommandTag: string := "<CMD>"
  const CallTabTag: string := "<CALLTABEVENT>"

  // ---------------------------------------------------------------------
  // One chunk

  /** What the read loop makes of one chunk. */
  datatype Chunk =
    | Invalid(message: string)
    | Ignored
    | CallTab(call: string, lat: string, lon: string)

  /** The message a chunk carries: the chunk without surrounding white space. */
  function Message(raw: string): (m: string)
  {
    Trim(raw)
  }

  /** A field as its regex extracts it, `open` and `close` being the field's
      own tags: one line, and never holding its closing tag. */
  function FieldValue(message: string, open: string, close: string): (v: string)
    requires |close| > 0
    ensures (forall k :: 0 <= k < |v| ==> v[k] != '\n') && !Contains(v, close)
  {
    ExtractedIsClean(message, open, close);
    ExtractBetween(message, open, close)
  }

  /** The three fields the loop body reads from a call-tab event. */
  function Call(message: string): string { FieldValue(message, "<CALL>", "</CALL>") }

  function Lat(message: string): string { FieldValue(message, "<LAT>", "</LAT>") }

  function Lon(message: string): string { FieldValue(message, "<LON>", "</LON>") }

  /** The decision the loop body takes on the trimmed message of a chunk:
      not a command, a command that is not a call-tab event, or a call-tab
      event with its three fields. */
  function Classify(message: string): (c: Chunk)
    ensures c.Invalid? <==> !StartsWith(message, CommandTag)
    ensures c.Invalid? ==> c.message == message
    ensures c.Ignored? <==> StartsWith(message, CommandTag) && !Contains(message, CallTabTag)
    ensures c.CallTab? ==> c.call == Call(message) && c.lat == Lat(message) && c.lon == Lon(message)
  {
    if !StartsWith(message, CommandTag) then Invalid(message)
    else if !Contains(message, CallTabTag) then Ignored
    else CallTab(Call(message), Lat(message), Lon(message))
  }

  // ---------------------------------------------------------------------
  // Call-tab records

  /** A field value as the logging program writes it: no tag inside, on one line. */
  predicate PlainField(v: string) {
    forall k :: 0 <= k < |v| ==> v[k] != '<' && v[k] != '\n'
  }

  /** The call sign, latitude and longitude fields of a record, with the
      text `g2` and `g3` in front of the latitude and longitude tags. */
  function Fields(call: string, g2: string, lat: string, g3: string, lon: string): string {
    "<CALL>" + (call + ("</CALL>" + (g2 + ("<LAT>" + (lat + ("</LAT>" + (g3 + ("<LON>" + (lon + "</LON>")))))))))
  }

  /** The start of a call-tab record: `<CMD>` and the event tag, each
      followed by the text `g0` or `g1`. */
  function Header(g0: string, g1: string): string {
    CommandTag + g0 + CallTabTag + g1
  }

  /** A call-tab record carrying a call sign and a position. The text `g0`
      to `g4` between the tags holds the record's other fields (band, mode,
      country, bearing, ...) or white space. */
  function Record(g0: string, g1: string, call: string, g2: string, lat: string, g3: string, lon: string, g4: string): string {
    Header(g0, g1) + Fields(call, g2, lat, g3, lon) + (g4 + "</CMD>")
  }

  /** A record of another event that carries the same three fields. */
  function OtherEventRecord(call: string, lat: string, lon: string): string {
    "<CMD><OTHER-EVENT>" + Fields(call, "", lat, "", lon) + "</OTHER-EVENT></CMD>"
  }

  /** Text between the extracted fields: nothing in it could begin the
      opening tag of the call sign, the latitude or the longitude. */
  predicate Filler(g: string) {
    TagFree(g, "<CALL>") && TagFree(g, "<LAT>") && TagFree(g, "<LON>")
  }

  /** Any other field of a record, such as `<BAND>10</BAND>`. */
  function Field(name: string, v: string): string {
    "<" + name + ">" + v + "</" + name + ">"
  }

  /** A tag name: no angle bracket inside. */
  predicate TagName(name: string) {
    forall k :: 0 <= k < |name| ==> name[k] != '<' && name[k] != '>'
  }

  /** A string without '<' cannot begin any tag. */
  lemma NoAngleIsTagFree(v: string, tag: string)
    requires forall k :: 0 <= k < |v| ==> v[k] != '<'
    requires |tag| > 0 && tag[0] == '<'
    ensures TagFree(v, tag)
  {
    TagFreeByFirst(v, tag);
  }

  /** A plain value cannot begin any tag. */
  lemma PlainIsTagFree(v: string, tag: string)
    requires PlainField(v) && |tag| > 0 && tag[0] == '<'
    ensures TagFree(v, tag)
  {
    NoAngleIsTagFree(v, tag);
  }

  /** Neither can white space. */
  lemma BlankIsTagFree(g: string, tag: string)
    requires AllWhiteSpace(g) && |tag| > 0 && tag[0] == '<'
    ensures TagFree(g, tag)
  {
    forall k | 0 <= k < |g| ensures g[k] != '<' {
      assert IsWhiteSpace(g[k]);
    }
    NoAngleIsTagFree(g, tag);
  }

  /** White space is filler. */
  lemma BlankIsFiller(g: string)
    requires AllWhiteSpace(g)
    ensures Filler(g)
  {
    BlankIsTagFree(g, "<CALL>");
    BlankIsTagFree(g, "<LAT>");
    BlankIsTagFree(g, "<LON>");
  }

  /** Filler followed by filler is filler. */
  lemma FillerAppend(a: string, b: string)
    requires Filler(a) && Filler(b)
    ensures Filler(a + b)
  {
    TagFreeAppend(a, b, "<CALL>");
    TagFreeAppend(a, b, "<LAT>");
    TagFreeAppend(a, b, "<LON>");
  }

  /** The opening tag of one field cannot begin the opening tag of a field
      with another name. */
  lemma OpenTagFree(name: string, other: string)
    requires TagName(name) && TagName(other) && name != other
    ensures TagFree("<" + name + ">", "<" + other + ">")
  {
    var o, t := "<" + name + ">", "<" + other + ">";
    var m, n := |name|, |other|;
    assert o[0] == t[0] == '<';
    forall k | 0 <= k < |o| ensures !Agrees(o, k, t) {
      if k == 0 {
        if m < n {
          assert o[k + (m + 1)] == '>' != other[m] == t[m + 1];
        } else if m > n {
          assert o[k + (n + 1)] == name[n] != '>' == t[n + 1];
        } else {
          var j :| 0 <= j < m && name[j] != other[j];
          assert o[k + (j + 1)] == name[j] != other[j] == t[j + 1];
        }
      } else if k <= m {
        assert o[k + 0] == name[k - 1] != '<';
      } else {
        assert o[k + 0] == '>';
      }
    }
  }

  /** A closing tag cannot begin an opening tag. */
  lemma CloseTagFree(name: string, other: string)
    requires TagName(name) && |other| > 0 && other[0] != '/'
    ensures TagFree("</" + name + ">", "<" + other + ">")
  {
    var c, t := "</" + name + ">", "<" + other + ">";
    forall k | 0 < k < |c| ensures c[k] != '<' {
      if 1 < k < |c| - 1 { assert c[k] == name[k - 2]; }
    }
    assert c[1] == '/';
    TagFreeBySecond(c, t);
  }

  /** A field other than the three extracted ones cannot begin their tags. */
  lemma FieldTagFree(name: string, v: string, other: string)
    requires TagName(name) && TagName(other) && name != other
    requires |other| > 0 && other[0] != '/' && PlainField(v)
    ensures TagFree(Field(name, v), "<" + other + ">")
  {
    var t := "<" + other + ">";
    OpenTagFree(name, other);
    PlainIsTagFree(v, t);
    CloseTagFree(name, other);
    TagFreeAppend("<" + name + ">", v, t);
    TagFreeAppend("<" + name + ">" + v, "</" + name + ">", t);
    assert Field(name, v) == "<" + name + ">" + v + ("</" + name + ">");
  }

  /** So every other field of a record, with a plain value, is filler. */
  lemma FieldIsFiller(name: string, v: string)
    requires TagName(name) && name != "CALL" && name != "LAT" && name != "LON"
    requires PlainField(v)
    ensures Filler(Field(name, v))
  {
    assert "<" + "CALL" + ">" == "<CALL>" && "<" + "LAT" + ">" == "<LAT>" && "<" + "LON" + ">" == "<LON>";
    FieldTagFree(name, v, "CALL");
    FieldTagFree(name, v, "LAT");
    FieldTagFree(name, v, "LON");
  }

  /** `<CMD>` cannot begin a field tag: its '<' is followed by "CMD>". */
  lemma CommandTagFree(tag: string)
    requires tag == "<CALL>" || tag == "<LAT>" || tag == "<LON>"
    ensures TagFree(CommandTag, tag)
  {
    var c := CommandTag;
    forall k | 0 <= k < |c| ensures !Agrees(c, k, tag) {
      if k == 0 {
        if tag == "<CALL>" { assert c[k + 2] != tag[2]; } else { assert c[k + 1] != tag[1]; }
      } else { assert c[k + 0] != tag[0]; }
    }
  }

  /** Nor can `<CALLTABEVENT>`, although it begins like `<CALL>`. */
  lemma CallTabTagFree(tag: string)
    requires tag == "<CALL>" || tag == "<LAT>" || tag == "<LON>"
    ensures TagFree(CallTabTag, tag)
  {
    var c := CallTabTag;
    forall k | 0 <= k < |c| ensures !Agrees(c, k, tag) {
      if k == 0 {
        if tag == "<CALL>" { assert c[k + 5] != tag[5]; } else { assert c[k + 1] != tag[1]; }
      } else { assert c[k + 0] != tag[0]; }
    }
  }

  /** So a header with filler after each of its tags is filler. */
  lemma HeaderTagFree(g0: string, g1: string, tag: string)
    requires Filler(g0) && Filler(g1)
    requires tag == "<CALL>" || tag == "<LAT>" || tag == "<LON>"
    ensures TagFree(Header(g0, g1), tag)
  {
    CommandTagFree(tag);
    CallTabTagFree(tag);
    TagFreeAppend(CommandTag, g0, tag);
    TagFreeAppend(CommandTag + g0, CallTabTag, tag);
    TagFreeAppend(CommandTag + g0 + CallTabTag, g1, tag);
  }

  lemma HeaderIsFiller(g0: string, g1: string)
    requires Filler(g0) && Filler(g1)
    ensures Filler(Header(g0, g1))
  {
    HeaderTagFree(g0, g1, "<CALL>");
    HeaderTagFree(g0, g1, "<LAT>");
    HeaderTagFree(g0, g1, "<LON>");
  }

  /** The start of another event's record is filler as well. */
  lemma OtherHeaderIsFiller()
    ensures Filler("<CMD><OTHER-EVENT>")
  {
    var o := "<OTHER-EVENT>";
    forall tag | tag == "<CALL>" || tag == "<LAT>" || tag == "<LON>"
      ensures TagFree(CommandTag + o, tag)
    {
      CommandTagFree(tag);
      TagFreeBySecond(o, tag);
      TagFreeAppend(CommandTag, o, tag);
    }
    assert CommandTag + o == "<CMD><OTHER-EVENT>";
  }

  /** The call sign is read back from the fields, whatever surrounds them,
      as long as nothing in front of them could begin its tag. */
  lemma CallOfFields(pre: string, call: string, g2: string, lat: string, g3: string, lon: string, post: string)
    requires Filler(pre) && PlainField(call)
    ensures Call(pre + Fields(call, g2, lat, g3, lon) + post) == call
  {
    var after := g2 + ("<LAT>" + (lat + ("</LAT>" + (g3 + ("<LON>" + (lon + "</LON>"))))));
    assert pre + Fields(call, g2, lat, g3, lon) + post == pre + "<CALL>" + call + "</CALL>" + (after + post);
    PlainIsTagFree(call, "</CALL>");
    ExtractFromLayout(pre, "<CALL>", call, "</CALL>", after + post);
  }

  /** Nothing in front of the latitude field can begin its tag. */
  lemma FrontOfLatIsTagFree(pre: string, call: string, g2: string)
    requires Filler(pre) && Filler(g2) && PlainField(call)
    ensures TagFree(pre + "<CALL>" + call + "</CALL>" + g2, "<LAT>")
  {
    var t := "<LAT>";
    var b := pre + "<CALL>";
    var c := b + call;
    var d := c + "</CALL>";
    TagFreeBySecond("<CALL>", t);
    TagFreeAppend(pre, "<CALL>", t);
    PlainIsTagFree(call, t);
    TagFreeAppend(b, call, t);
    TagFreeBySecond("</CALL>", t);
    TagFreeAppend(c, "</CALL>", t);
    TagFreeAppend(d, g2, t);
  }

  /** The latitude is read back whatever other fields or white space lie
      in front of it. */
  lemma LatOfFields(pre: string, call: string, g2: string, lat: string, g3: string, lon: string, post: string)
    requires Filler(pre) && Filler(g2) && PlainField(call) && PlainField(lat)
    ensures Lat(pre + Fields(call, g2, lat, g3, lon) + post) == lat
  {
    var front := pre + "<CALL>" + call + "</CALL>" + g2;
    var after := g3 + ("<LON>" + (lon + "</LON>"));
    assert pre + Fields(call, g2, lat, g3, lon) + post == front + "<LAT>" + lat + "</LAT>" + (after + post);
    FrontOfLatIsTagFree(pre, call, g2);
    PlainIsTagFree(lat, "</LAT>");
    ExtractFromLayout(front, "<LAT>", lat, "</LAT>", after + post);
  }

  /** Nothing in front of the longitude field can begin its tag. */
  lemma FrontOfLonIsTagFree(pre: string, call: string, g2: string, lat: string, g3: string)
    requires Filler(pre) && Filler(g2) && Filler(g3)
    requires PlainField(call) && PlainField(lat)
    ensures TagFree(pre + "<CALL>" + call + "</CALL>" + g2 + "<LAT>" + lat + "</LAT>" + g3, "<LON>")
  {
    var t := "<LON>";
    var b := pre + "<CALL>";
    var c := b + call;
    var d := c + "</CALL>";
    var e := d + g2;
    var f := e + "<LAT>";
    var g := f + lat;
    var h := g + "</LAT>";
    TagFreeBySecond("<CALL>", t);
    TagFreeAppend(pre, "<CALL>", t);
    PlainIsTagFree(call, t);
    TagFreeAppend(b, call, t);
    TagFreeBySecond("</CALL>", t);
    TagFreeAppend(c, "</CALL>", t);
    TagFreeAppend(d, g2, t);
    var l := "<LAT>";
    forall k | 0 <= k < |l| ensures !Agrees(l, k, t) {
      if k == 0 { assert l[k + 2] != t[2]; } else { assert l[k + 0] != t[0]; }
    }
    TagFreeAppend(e, l, t);
    PlainIsTagFree(lat, t);
    TagFreeAppend(f, lat, t);
    TagFreeBySecond("</LAT>", t);
    TagFreeAppend(g, "</LAT>", t);
    TagFreeAppend(h, g3, t);
  }

  /** The longitude is read back whatever other fields or white space lie
      in front of it. */
  lemma LonOfFields(pre: string, call: string, g2: string, lat: string, g3: string, lon: string, post: string)
    requires Filler(pre) && Filler(g2) && Filler(g3)
    requires PlainField(call) && PlainField(lat) && PlainField(lon)
    ensures Lon(pre + Fields(call, g2, lat, g3, lon) + post) == lon
  {
    var front := pre + "<CALL>" + call + "</CALL>" + g2 + "<LAT>" + lat + "</LAT>" + g3;
    assert pre + Fields(call, g2, lat, g3, lon) + post == front + "<LON>" + lon + "</LON>" + post;
    FrontOfLonIsTagFree(pre, call, g2, lat, g3);
    PlainIsTagFree(lon, "</LON>");
    ExtractFromLayout(front, "<LON>", lon, "</LON>", post);
  }

  /** A text that starts with `<CMD>`, holds `<CALLTABEVENT>` anywhere and
      ends in a visible character is its own message, a command and a
      call-tab event. */
  lemma CallTabMessage(text: string, i: nat)
    requires StartsWith(text, CommandTag) && IsAt(text, i, CallTabTag)
    requires !IsWhiteSpace(text[|text| - 1])
    ensures Message(text) == text && StartsWith(text, CommandTag) && Contains(text, CallTabTag)
  {
    AtChar(text, 0, CommandTag, 0);
    TrimKeeps(text);
    ContainsMeansOccurs(text, CallTabTag);
  }

  /** Where a record's event tag sits. */
  lemma RecordEventTag(g0: string, g1: string, call: string, g2: string, lat: string, g3: string, lon: string, g4: string, rest: string)
    ensures var text := Record(g0, g1, call, g2, lat, g3, lon, g4) + rest;
      StartsWith(text, CommandTag) && IsAt(text, 5 + |g0|, CallTabTag)
  {
    var text := Record(g0, g1, call, g2, lat, g3, lon, g4) + rest;
    var h := Header(g0, g1);
    assert text[..|h|] == h;
    assert text[0..5] == h[0..5] == CommandTag;
    assert text[5 + |g0|..5 + |g0| + |CallTabTag|] == h[5 + |g0|..5 + |g0| + |CallTabTag|] == CallTabTag;
  }

  /** A record followed by anything that does not end in white space is a
      call-tab message. */
  lemma RecordHeader(g0: string, g1: string, call: string, g2: string, lat: string, g3: string, lon: string, g4: string, rest: string)
    requires rest == [] || !IsWhiteSpace(rest[|rest| - 1])
    ensures var text := Record(g0, g1, call, g2, lat, g3, lon, g4) + rest;
      Message(text) == text && StartsWith(text, CommandTag) && Contains(text, CallTabTag)
  {
    var r := Record(g0, g1, call, g2, lat, g3, lon, g4);
    assert r[|r| - 1] == '>';
    var text := r + rest;
    assert text[|text| - 1] == if rest == [] then '>' else rest[|rest| - 1];
    RecordEventTag(g0, g1, call, g2, lat, g3, lon, g4, rest);
    CallTabMessage(text, 5 + |g0|);
  }

  /** A chunk that begins with a well-formed call-tab record is a call-tab
      event carrying exactly that record's fields, whatever other fields or
      white space sit between its tags and whatever follows the record. */
  lemma ClassifyRecord(g0: string, g1: string, call: string, g2: string, lat: string, g3: string, lon: string, g4: string, rest: string)
    requires Filler(g0) && Filler(g1) && Filler(g2) && Filler(g3)
    requires PlainField(call) && PlainField(lat) && PlainField(lon)
    requires rest == [] || !IsWhiteSpace(rest[|rest| - 1])
    ensures Classify(Message(Record(g0, g1, call, g2, lat, g3, lon, g4) + rest)) == CallTab(call, lat, lon)
  {
    var h := Header(g0, g1);
    var post := (g4 + "</CMD>") + rest;
    assert Record(g0, g1, call, g2, lat, g3, lon, g4) + rest == h + Fields(call, g2, lat, g3, lon) + post;
    RecordHeader(g0, g1, call, g2, lat, g3, lon, g4, rest);
    HeaderIsFiller(g0, g1);
    CallOfFields(h, call, g2, lat, g3, lon, post);
    LatOfFields(h, call, g2, lat, g3, lon, post);
    LonOfFields(h, call, g2, lat, g3, lon, post);
  }

  /** The fields are looked for across the whole chunk, each on its own, and
      the event tag anywhere in it: a record of another event in front of a
      call-tab record makes the chunk a call-tab event with the other
      record's call sign and position. */
  lemma OtherEventFirst(call: string, lat: string, lon: string,
                        g0: string, g1: string, call': string, g2: string, lat': string, g3: string, lon': string, g4: string)
    requires PlainField(call) && PlainField(lat) && PlainField(lon)
    ensures Classify(Message(OtherEventRecord(call, lat, lon) + Record(g0, g1, call', g2, lat', g3, lon', g4)))
      == CallTab(call, lat, lon)
  {
    var r := Record(g0, g1, call', g2, lat', g3, lon', g4);
    OtherEventMessage(call, lat, lon, g0, g1, call', g2, lat', g3, lon', g4);
    OtherEventFields(call, lat, lon, r);
  }

  /** Another event's record followed by a call-tab record is a call-tab
      message: it starts with `<CMD>` and holds `<CALLTABEVENT>` further on. */
  lemma OtherEventMessage(call: string, lat: string, lon: string,
                          g0: string, g1: string, call': string, g2: string, lat': string, g3: string, lon': string, g4: string)
    ensures var text := OtherEventRecord(call, lat, lon) + Record(g0, g1, call', g2, lat', g3, lon', g4);
      Message(text) == text && StartsWith(text, CommandTag) && Contains(text, CallTabTag)
  {
    var o := OtherEventRecord(call, lat, lon);
    var r := Record(g0, g1, call', g2, lat', g3, lon', g4);
    var text := o + r;
    RecordEventTag(g0, g1, call', g2, lat', g3, lon', g4, []);
    assert r + [] == r;
    OccursAfter(o, r, 5 + |g0|, CallTabTag);
    assert text[0..5] == o[0..5] == CommandTag;
    assert text[|text| - 1] == r[|r| - 1] == '>';
    CallTabMessage(text, |o| + 5 + |g0|);
  }

  /** An occurrence in `b` is one in `a + b`, shifted by `|a|`. */
  lemma OccursAfter(a: string, b: string, i: nat, p: string)
    requires IsAt(b, i, p)
    ensures IsAt(a + b, |a| + i, p)
  {
    assert (a + b)[|a| + i..|a| + i + |p|] == b[i..i + |p|];
  }

  /** The first call sign, latitude and longitude of such a chunk are the
      other record's. */
  lemma OtherEventFields(call: string, lat: string, lon: string, r: string)
    requires PlainField(call) && PlainField(lat) && PlainField(lon)
    ensures var text := OtherEventRecord(call, lat, lon) + r;
      Call(text) == call && Lat(text) == lat && Lon(text) == lon
  {
    var pre := "<CMD><OTHER-EVENT>";
    var post := "</OTHER-EVENT></CMD>" + r;
    assert OtherEventRecord(call, lat, lon) + r == pre + Fields(call, "", lat, "", lon) + post;
    OtherHeaderIsFiller();
    assert Filler("");
    CallOfFields(pre, call, "", lat, "", lon, post);
    LatOfFields(pre, call, "", lat, "", lon, post);
    LonOfFields(pre, call, "", lat, "", lon, post);
  }

  // ---------------------------------------------------------------------
  // What one chunk does

  function ReceivedLog(message: string): LogEntry {
    LogEntry("[N3FJP API] " + message, Trace)
  }

  function InvalidMessageLog(message: string): LogEntry {
    LogEntry("Invalid message received: " + message, Error)
  }

  function CallTabLogs(call: string, lat: string, lon: string): seq<LogEntry> {
    [ LogEntry("CallTab event received:", Info),
      LogEntry("  Call: " + call, Info),
      LogEntry("  Lat: " + lat, Info),
      LogEntry("  Lon: " + lon, Info) ]
  }

  /** A received chunk as the read loop sees it: the trimmed message and
      what it classifies as. */
  datatype Decoded = Decoded(message: string, chunk: Chunk)

  function Decode(raw: string): Decoded {
    var m := Message(raw);
    Decoded(m, Classify(m))
  }

  /** The coordinates a decoded chunk hands to `UpdateHamClocks`, if it does. */
  function Dispatched(d: Decoded): Option<(string, string)> {
    match d.chunk
    case CallTab(_, lat, lon) => Some((lat, lon))
    case _ => None
  }

  function Dispatch(raw: string): Option<(string, string)> {
    Dispatched(Decode(raw))
  }

  /** One pass of the read loop over a decoded chunk; the dispatcher's
      requests are numbered from `k` in the session. */
  function DecodedEffect(d: Decoded, targets: seq<string>, isNumber: string -> bool,
                         respond: (nat, string) -> Response, k: nat): (e: Effect)
    ensures |e.logs| >= 1 && e.logs[0] == ReceivedLog(d.message)
    ensures !d.chunk.CallTab? ==> e.sent == []
  {
    var received := Effect([ReceivedLog(d.message)], []);
    match d.chunk
    case Invalid(m) => received.Then(Effect([InvalidMessageLog(m)], []))
    case Ignored => received
    case CallTab(call, lat, lon) =>
      received.Then(Effect(CallTabLogs(call, lat, lon), [])).Then(UpdateEffect(targets, isNumber, lat, lon, respond, k))
  }

  function ChunkEffect(raw: string, targets: seq<string>, isNumber: string -> bool,
                       respond: (nat, string) -> Response, k: nat): (e: Effect)
    ensures |e.logs| >= 1 && e.logs[0] == ReceivedLog(Message(raw))
    ensures Dispatch(raw).None? ==> e.sent == []
  {
    DecodedEffect(Decode(raw), targets, isNumber, respond, k)
  }

  /** A chunk whose message does not start with `<CMD>`: the message is
      echoed, then one error quotes it; nothing is dispatched. */
  lemma InvalidChunk(raw: string, targets: seq<string>, isNumber: string -> bool,
                     respond: (nat, string) -> Response, k: nat)
    requires !StartsWith(Message(raw), CommandTag)
    ensures var e := ChunkEffect(raw, targets, isNumber, respond, k);
      && e.logs == [ReceivedLog(Message(raw)), InvalidMessageLog(Message(raw))]
      && e.sent == [] && ErrorCount(e.logs) == 1 && Dispatch(raw) == None
  {
    var d := Decode(raw);
    assert d.chunk == Invalid(d.message);
    InvalidDecoded(d, targets, isNumber, respond, k);
  }

  /** The same for a decoded chunk that classified as invalid. */
  lemma InvalidDecoded(d: Decoded, targets: seq<string>, isNumber: string -> bool,
                       respond: (nat, string) -> Response, k: nat)
    requires d.chunk == Invalid(d.message)
    ensures var e := DecodedEffect(d, targets, isNumber, respond, k);
      && e.logs == [ReceivedLog(d.message), InvalidMessageLog(d.message)]
      && e.sent == [] && ErrorCount(e.logs) == 1 && Dispatched(d) == None
  {
    var logs := [ReceivedLog(d.message), InvalidMessageLog(d.message)];
    assert logs[..1] == [ReceivedLog(d.message)];
  }

  /** A command that is not a call-tab event is only echoed: no error and
      nothing dispatched. */
  lemma IgnoredChunk(raw: string, targets: seq<string>, isNumber: string -> bool,
                     respond: (nat, string) -> Response, k: nat)
    requires StartsWith(Message(raw), CommandTag) && !Contains(Message(raw), CallTabTag)
    ensures var e := ChunkEffect(raw, targets, isNumber, respond, k);
      e.logs == [ReceivedLog(Message(raw))] && e.sent == [] && ErrorCount(e.logs) == 0 && Dispatch(raw) == None
  {
  }

  /** A call-tab event dispatches its latitude and longitude exactly as
      extracted, empty or not, after echoing the message and its fields. */
  lemma CallTabChunk(raw: string, targets: seq<string>, isNumber: string -> bool,
                     respond: (nat, string) -> Response, k: nat)
    requires StartsWith(Message(raw), CommandTag) && Contains(Message(raw), CallTabTag)
    ensures var m := Message(raw);
      var e := ChunkEffect(raw, targets, isNumber, respond, k);
      && Dispatch(raw) == Some((Lat(m), Lon(m)))
      && e.logs[..5] == [ReceivedLog(m)] + CallTabLogs(Call(m), Lat(m), Lon(m))
      && e.logs[5] == UpdatingLog(|targets|)
      && e.sent == Requests(targets, isNumber, Lat(m), Lon(m))
  {
    var m := Message(raw);
    var d := Decode(raw);
    assert d.chunk == CallTab(Call(m), Lat(m), Lon(m));
    CallTabDecoded(d, targets, isNumber, respond, k);
  }

  /** The same for a decoded call-tab event. */
  lemma CallTabDecoded(d: Decoded, targets: seq<string>, isNumber: string -> bool,
                       respond: (nat, string) -> Response, k: nat)
    requires d.chunk.CallTab?
    ensures var e := DecodedEffect(d, targets, isNumber, respond, k);
      && e.logs[..5] == [ReceivedLog(d.message)] + CallTabLogs(d.chunk.call, d.chunk.lat, d.chunk.lon)
      && e.logs[5] == UpdatingLog(|targets|)
      && e.sent == Requests(targets, isNumber, d.chunk.lat, d.chunk.lon)
  {
    var u := UpdateEffect(targets, isNumber, d.chunk.lat, d.chunk.lon, respond, k);
    UpdateLogsCountFirst(targets, isNumber, d.chunk.lat, d.chunk.lon, respond, k);
    UpdateSent(targets, isNumber, d.chunk.lat, d.chunk.lon, respond, k);
    CallTabEffect(d, targets, isNumber, respond, k);
  }

  /** The whole effect of a decoded call-tab event: the echo of the message
      and of its fields, then what `UpdateHamClocks` does with the coordinates. */
  lemma CallTabEffect(d: Decoded, targets: seq<string>, isNumber: string -> bool,
                      respond: (nat, string) -> Response, k: nat)
    requires d.chunk.CallTab?
    ensures var e := DecodedEffect(d, targets, isNumber, respond, k);
      var u := UpdateEffect(targets, isNumber, d.chunk.lat, d.chunk.lon, respond, k);
      && e.logs == [ReceivedLog(d.message)] + CallTabLogs(d.chunk.call, d.chunk.lat, d.chunk.lon) + u.logs
      && e.sent == u.sent
  {
  }

  /** White space around a chunk changes nothing: the loop trims first. */
  lemma ChunkIgnoresPadding(before: string, raw: string, after: string, targets: seq<string>,
                            isNumber: string -> bool, respond: (nat, string) -> Response, k: nat)
    requires AllWhiteSpace(before) && AllWhiteSpace(after)
    ensures Dispatch(before + raw + after) == Dispatch(raw)
    ensures ChunkEffect(before + raw + after, targets, isNumber, respond, k) == ChunkEffect(raw, targets, isNumber, respond, k)
  {
    TrimIgnoresPadding(before, raw, after);
  }

  // ---------------------------------------------------------------------
  // A session: the chunks of one connection, in order

  /** An optional value as a list of zero or one elements. */
  function Listed<T>(d: Option<T>): (l: seq<T>)
    ensures |l| == if d.Some? then 1 else 0
  {
    match d
    case Some(x) => [x]
    case None => []
  }

  /** The chunks of a session, decoded one by one. */
  function Decodes(chunks: seq<string>): seq<Decoded> {
    Mapped(chunks, Decode)
  }

  /** The `i`-th decoded chunk is the `i`-th chunk decoded on its own:
      nothing is dropped, merged or carried over from one read to the next. */
  lemma DecodesAt(chunks: seq<string>, i: nat)
    requires i < |chunks|
    ensures |Decodes(chunks)| == |chunks| && Decodes(chunks)[i] == Decode(chunks[i])
  {
    MappedAt(chunks, Decode, i);
  }

  /** One more chunk read is one more chunk decoded. */
  lemma DecodesStep(chunks: seq<string>, i: nat)
    requires i < |chunks|
    ensures Decodes(chunks[..i + 1]) == Decodes(chunks[..i]) + [Decode(chunks[i])]
  {
    MappedStep(chunks, Decode, i);
  }

  /** The coordinates handed to `UpdateHamClocks`, in order: the decoded
      chunks filtered and mapped by `Dispatched`. */
  function Dispatches(ds: seq<Decoded>): (pairs: seq<(string, string)>)
    ensures |pairs| <= |ds|
  {
    if ds == [] then []
    else Dispatches(ds[..|ds| - 1]) + Listed(Dispatched(ds[|ds| - 1]))
  }

  /** Dispatching is compositional: a session split in two dispatches the
      first part's coordinates, then the second's. */
  lemma {:induction false} DispatchesAppend(a: seq<Decoded>, b: seq<Decoded>)
    ensures Dispatches(a + b) == Dispatches(a) + Dispatches(b)
    decreases |b|
  {
    if b == [] {
      assert a + b == a;
    } else {
      var n := |b| - 1;
      assert (a + b)[..|a + b| - 1] == a + b[..n];
      assert (a + b)[|a + b| - 1] == b[n];
      DispatchesAppend(a, b[..n]);
      var d := Listed(Dispatched(b[n]));
      assert Dispatches(a) + Dispatches(b[..n]) + d == Dispatches(a) + (Dispatches(b[..n]) + d);
    }
  }

  /** The effects of handling `ds` one after the other with `handle`,
      each handler numbering its requests from where the previous ones
      stopped. */
  function InTurn(ds: seq<Decoded>, handle: (Decoded, nat) -> Effect, k: nat): Effect {
    if ds == [] then Effect([], [])
    else
      var n := |ds| - 1;
      var before := InTurn(ds[..n], handle, k);
      before.Then(handle(ds[n], k + |before.sent|))
  }

  /** When every item logs at least one line, the items in turn log at
      least one line each. */
  lemma {:induction false} InTurnLogs(ds: seq<Decoded>, handle: (Decoded, nat) -> Effect, k: nat)
    requires forall d, j :: |handle(d, j).logs| >= 1
    ensures |InTurn(ds, handle, k).logs| >= |ds|
  {
    if ds != [] {
      InTurnLogs(ds[..|ds| - 1], handle, k);
    }
  }

  /** The requests of each item, concatenated. */
  function Gathered(ds: seq<Decoded>, sent: Decoded -> seq<string>): seq<string> {
    if ds == [] then [] else Gathered(ds[..|ds| - 1], sent) + sent(ds[|ds| - 1])
  }

  /** When what a handler requests depends on the item alone, handling items
      in turn requests their requests in turn. */
  lemma {:induction false} InTurnSent(ds: seq<Decoded>, handle: (Decoded, nat) -> Effect, k: nat, sent: Decoded -> seq<string>)
    requires forall d, j :: handle(d, j).sent == sent(d)
    ensures InTurn(ds, handle, k).sent == Gathered(ds, sent)
  {
    if ds != [] {
      InTurnSent(ds[..|ds| - 1], handle, k, sent);
    }
  }

  /** One pass of the read loop, as a handler. */
  function Handler(targets: seq<string>, isNumber: string -> bool, respond: (nat, string) -> Response): (Decoded, nat) -> Effect {
    (d: Decoded, j: nat) => DecodedEffect(d, targets, isNumber, respond, j)
  }

  /** Everything the read loop does over a session's decoded chunks; each
      chunk is handled to the end, its requests included, before the next
      one is looked at. */
  function SessionEffect(ds: seq<Decoded>, targets: seq<string>, isNumber: string -> bool,
                         respond: (nat, string) -> Response, k: nat): (e: Effect)
    ensures |e.logs| >= |ds|
  {
    InTurnLogs(ds, Handler(targets, isNumber, respond), k);
    InTurn(ds, Handler(targets, isNumber, respond), k)
  }

  /** One more chunk extends a session by that chunk's effect. */
  lemma SessionExtend(ds: seq<Decoded>, d: Decoded, targets: seq<string>, isNumber: string -> bool,
                      respond: (nat, string) -> Response, k: nat)
    ensures var before := SessionEffect(ds, targets, isNumber, respond, k);
      SessionEffect(ds + [d], targets, isNumber, respond, k)
        == before.Then(DecodedEffect(d, targets, isNumber, respond, k + |before.sent|))
  {
    assert (ds + [d])[..|ds|] == ds;
  }

  /** The addresses requested for one optional dispatch. */
  function DispatchRequests(targets: seq<string>, isNumber: string -> bool, d: Option<(string, string)>): seq<string> {
    match d
    case Some((lat, lon)) => Requests(targets, isNumber, lat, lon)
    case None => []
  }

  /** The addresses requested for a sequence of dispatched coordinates. */
  function AllRequests(targets: seq<string>, isNumber: string -> bool, pairs: seq<(string, string)>): seq<string> {
    if pairs == [] then []
    else
      var n := |pairs| - 1;
      AllRequests(targets, isNumber, pairs[..n]) + Requests(targets, isNumber, pairs[n].0, pairs[n].1)
  }

  /** A chunk requests what its dispatch, if any, requests. */
  lemma DecodedSent(d: Decoded, targets: seq<string>, isNumber: string -> bool,
                    respond: (nat, string) -> Response, k: nat)
    ensures DecodedEffect(d, targets, isNumber, respond, k).sent == DispatchRequests(targets, isNumber, Dispatched(d))
  {
    match d.chunk
    case Invalid(_) =>
    case Ignored =>
    case CallTab(_, lat, lon) =>
      UpdateSent(targets, isNumber, lat, lon, respond, k);
  }

  lemma AllRequestsStep(targets: seq<string>, isNumber: string -> bool, pairs: seq<(string, string)>, d: Option<(string, string)>)
    ensures AllRequests(targets, isNumber, pairs + Listed(d))
         == AllRequests(targets, isNumber, pairs) + DispatchRequests(targets, isNumber, d)
  {
    if d.Some? {
      assert (pairs + Listed(d))[..|pairs|] == pairs;
    } else {
      assert pairs + Listed(d) == pairs;
    }
  }

  /** What a decoded chunk requests, as a function of the chunk. */
  function Requested(targets: seq<string>, isNumber: string -> bool): Decoded -> seq<string> {
    d => DispatchRequests(targets, isNumber, Dispatched(d))
  }

  lemma {:induction false} GatheredDispatches(ds: seq<Decoded>, targets: seq<string>, isNumber: string -> bool)
    ensures Gathered(ds, Requested(targets, isNumber)) == AllRequests(targets, isNumber, Dispatches(ds))
  {
    if ds != [] {
      var n := |ds| - 1;
      GatheredDispatches(ds[..n], targets, isNumber);
      AllRequestsStep(targets, isNumber, Dispatches(ds[..n]), Dispatched(ds[n]));
    }
  }

  /** The requests of a session are those of its dispatches, in order,
      whatever the HamClocks answer. */
  lemma SessionRequests(ds: seq<Decoded>, targets: seq<string>, isNumber: string -> bool,
                        respond: (nat, string) -> Response, k: nat)
    ensures SessionEffect(ds, targets, isNumber, respond, k).sent
         == AllRequests(targets, isNumber, Dispatches(ds))
  {
    var handle := Handler(targets, isNumber, respond);
    forall d, j: nat ensures handle(d, j).sent == Requested(targets, isNumber)(d) {
      DecodedSent(d, targets, isNumber, respond, j);
    }
    InTurnSent(ds, handle, k, Requested(targets, isNumber));
    GatheredDispatches(ds, targets, isNumber);
  }

  /** The first part of a record cut in two by the reads right after its
      call sign's field. */
  function RecordHead(g0: string, g1: string, call: string): string {
    Header(g0, g1) + "<CALL>" + call + "</CALL>"
  }

  /** The rest of that record. */
  function RecordTail(lat: string, g3: string, lon: string): string {
    "<LAT>" + lat + "</LAT>" + g3 + "<LON>" + lon + "</LON>" + "</CMD>"
  }

  /** The first part holds no position tag. */
  lemma HeadLacks(g0: string, g1: string, call: string, tag: string)
    requires Filler(g0) && Filler(g1) && PlainField(call)
    requires tag == "<LAT>" || tag == "<LON>"
    ensures forall i :: 0 <= i < |RecordHead(g0, g1, call)| ==> !IsAt(RecordHead(g0, g1, call), i, tag)
  {
    var a := Header(g0, g1);
    var b := a + "<CALL>";
    var c := b + call;
    HeaderTagFree(g0, g1, tag);
    TagFreeBySecond("<CALL>", tag);
    TagFreeAppend(a, "<CALL>", tag);
    PlainIsTagFree(call, tag);
    TagFreeAppend(b, call, tag);
    TagFreeBySecond("</CALL>", tag);
    TagFreeAppend(c, "</CALL>", tag);
    TagFreeNoStart(RecordHead(g0, g1, call), tag, RecordHead(g0, g1, call), 0);
  }

  /** The two parts make up the record. */
  lemma HeadTail(g0: string, g1: string, call: string, lat: string, g3: string, lon: string)
    ensures RecordHead(g0, g1, call) + RecordTail(lat, g3, lon) == Record(g0, g1, call, "", lat, g3, lon, "")
  {
  }

  /** The first part is a call-tab message. */
  lemma HeadIsCallTab(g0: string, g1: string, call: string)
    ensures var head := RecordHead(g0, g1, call);
      Message(head) == head && StartsWith(head, CommandTag) && Contains(head, CallTabTag)
  {
    var head := RecordHead(g0, g1, call);
    var h := Header(g0, g1);
    assert head[..|h|] == h;
    assert head[0..5] == h[0..5] == CommandTag;
    assert head[5 + |g0|..5 + |g0| + |CallTabTag|] == h[5 + |g0|..5 + |g0| + |CallTabTag|] == CallTabTag;
    assert head[|head| - 1] == '>';
    CallTabMessage(head, 5 + |g0|);
  }

  /** It carries the call sign. */
  lemma HeadCall(g0: string, g1: string, call: string)
    requires Filler(g0) && Filler(g1) && PlainField(call)
    ensures Call(RecordHead(g0, g1, call)) == call
  {
    assert RecordHead(g0, g1, call) == Header(g0, g1) + "<CALL>" + call + "</CALL>" + "";
    HeaderTagFree(g0, g1, "<CALL>");
    PlainIsTagFree(call, "</CALL>");
    ExtractFromLayout(Header(g0, g1), "<CALL>", call, "</CALL>", "");
  }

  /** It carries no position. */
  lemma HeadNoPosition(g0: string, g1: string, call: string)
    requires Filler(g0) && Filler(g1) && PlainField(call)
    ensures Lat(RecordHead(g0, g1, call)) == "" && Lon(RecordHead(g0, g1, call)) == ""
  {
    HeadLacks(g0, g1, call, "<LAT>");
    ExtractAbsent(RecordHead(g0, g1, call), "<LAT>", "</LAT>");
    HeadLacks(g0, g1, call, "<LON>");
    ExtractAbsent(RecordHead(g0, g1, call), "<LON>", "</LON>");
  }

  /** The rest of the record is its own message and not a command. */
  lemma TailIsNotCommand(lat: string, g3: string, lon: string)
    ensures var tail := RecordTail(lat, g3, lon);
      Message(tail) == tail && !StartsWith(tail, CommandTag)
  {
    var tail := RecordTail(lat, g3, lon);
    assert tail[1] == 'L';
    assert !IsAt(tail, 0, CommandTag) by {
      if IsAt(tail, 0, CommandTag) { AtChar(tail, 0, CommandTag, 1); }
    }
    assert tail[0] == '<' && tail[|tail| - 1] == '>';
    TrimKeeps(tail);
  }

  /** Records are not reassembled across reads: the first part of a cut
      record is a call-tab event whose position is empty. */
  lemma HeadDecodes(g0: string, g1: string, call: string)
    requires Filler(g0) && Filler(g1) && PlainField(call)
    ensures Decode(RecordHead(g0, g1, call)).chunk == CallTab(call, "", "")
  {
    HeadIsCallTab(g0, g1, call);
    HeadCall(g0, g1, call);
    HeadNoPosition(g0, g1, call);
  }

  /** The rest of a cut record is not a command at all. */
  lemma TailDecodes(lat: string, g3: string, lon: string)
    ensures Decode(RecordTail(lat, g3, lon)) == Decoded(RecordTail(lat, g3, lon), Invalid(RecordTail(lat, g3, lon)))
  {
    TailIsNotCommand(lat, g3, lon);
  }

  /** A call-tab event without a position followed by an invalid message
      dispatches one empty position. */
  lemma EmptyThenInvalid(ds: seq<Decoded>, call: string, targets: seq<string>, isNumber: string -> bool,
                         respond: (nat, string) -> Response, k: nat)
    requires |ds| == 2 && ds[0].chunk == CallTab(call, "", "") && ds[1].chunk.Invalid?
    requires !isNumber("")
    ensures Dispatches(ds) == [("", "")]
    ensures SessionEffect(ds, targets, isNumber, respond, k).sent == []
  {
    PairDispatches(ds, call);
    SessionRequests(ds, targets, isNumber, respond, k);
    NoPositionNoRequests(targets, isNumber);
  }

  /** Of the two, only the call-tab event dispatches. */
  lemma PairDispatches(ds: seq<Decoded>, call: string)
    requires |ds| == 2 && ds[0].chunk == CallTab(call, "", "") && ds[1].chunk.Invalid?
    ensures Dispatches(ds) == [("", "")]
  {
    assert ds[..1][..0] == [];
  }

  /** An empty position, dispatched once, requests nothing. */
  lemma NoPositionNoRequests(targets: seq<string>, isNumber: string -> bool)
    requires !isNumber("")
    ensures AllRequests(targets, isNumber, [("", "")]) == []
  {
    assert [("", "")][..0] == [];
  }

  /** The reads of a cut record decode as a call-tab event without a
      position, then an invalid message. */
  lemma SplitDecodes(g0: string, g1: string, call: string, lat: string, g3: string, lon: string)
    requires Filler(g0) && Filler(g1) && PlainField(call)
    ensures var ds := Decodes([RecordHead(g0, g1, call), RecordTail(lat, g3, lon)]);
      |ds| == 2 && ds[0].chunk == CallTab(call, "", "") && ds[1].chunk.Invalid?
  {
    HeadDecodes(g0, g1, call);
    TailDecodes(lat, g3, lon);
    DecodesPair([RecordHead(g0, g1, call), RecordTail(lat, g3, lon)]);
  }

  /** Two reads decode one by one. */
  lemma DecodesPair(chunks: seq<string>)
    requires |chunks| == 2
    ensures |Decodes(chunks)| == 2
    ensures Decodes(chunks)[0] == Decode(chunks[0]) && Decodes(chunks)[1] == Decode(chunks[1])
  {
    DecodesAt(chunks, 0);
    DecodesAt(chunks, 1);
  }

  /** So the cut record dispatches an empty position, which the dispatcher
      rejects: the session of the two parts requests nothing. */
  lemma SplitRecord(g0: string, g1: string, call: string, lat: string, g3: string, lon: string,
                    targets: seq<string>, isNumber: string -> bool, respond: (nat, string) -> Response, k: nat)
    requires Filler(g0) && Filler(g1) && PlainField(call)
    requires !isNumber("")
    ensures var chunks := [RecordHead(g0, g1, call), RecordTail(lat, g3, lon)];
      && Dispatches(Decodes(chunks)) == [("", "")]
      && SessionEffect(Decodes(chunks), targets, isNumber, respond, k).sent == []
  {
    SplitDecodes(g0, g1, call, lat, g3, lon);
    EmptyThenInvalid(Decodes([RecordHead(g0, g1, call), RecordTail(lat, g3, lon)]), call, targets, isNumber, respond, k);
  }

  // ---------------------------------------------------------------------
  // The connection

  /** The cancellation source of the read loop: none created yet, created
      and live, or cancelled. Cancelling a cancelled source changes nothing. */
  datatype CancelState = NoSource | Live | Cancelled

  /** What the client holds between calls: whether it has a TCP client
      (`_tcpClient != null`) and the state of its cancellation source. */
  datatype Link = Link(connected: bool, cancellation: CancelState)

  /** A live cancellation source belongs to a connection that has not been
      torn down. */
  predicate Consistent(l: Link) {
    l.cancellation == Live ==> l.connected
  }

  /** How the read after the last chunk ends: the peer closed the stream
      (the read returns 0 bytes), or `Disconnect` cancelled it. */
  datatype ReadEnd = EndOfStream | ReadCancelled

  /** The ports `new TcpClient(host, port)` accepts; any other port makes it
      throw `ArgumentOutOfRangeException`. */
  predicate ValidPort(port: int) {
    0 <= port <= 65535
  }

  function InitializingLog(): LogEntry {
    LogEntry("Initializing API client...", Trace)
  }

  function ConnectingLog(host: string, port: int): LogEntry {
    LogEntry("Connecting to N3FJP API on " + host + ":" + IntToString(port) + "...", Trace)
  }

  function ConnectedLog(): LogEntry {
    LogEntry("Connected to N3FJP API server.", Info)
  }

  function ConnectErrorLog(): LogEntry {
    LogEntry("Error connecting to N3FJP API", Error)
  }

  /** `Disconnect` on link `l`: the source, if any, is cancelled and the TCP
      client dropped. */
  function DisconnectStep(l: Link): (r: Link)
    ensures !r.connected && r.cancellation != Live
    ensures l.cancellation != Live ==> r.cancellation == l.cancellation
  {
    Link(false, if l.cancellation == Live then Cancelled else l.cancellation)
  }

  /** What `Disconnect` logs on link `l`. */
  function DisconnectLogs(l: Link): (logs: seq<LogEntry>)
    ensures |logs| == 2 && logs[0] == LogEntry("Disconnecting from N3FJP API...", Trace)
    ensures logs[1].level == Info <==> l.connected
    ensures logs[1] == (if l.connected then LogEntry("Disconnected from N3FJP API.", Info)
                        else LogEntry("Already disconnected.", Trace))
    ensures ErrorCount(logs) == 0
  {
    [LogEntry("Disconnecting from N3FJP API...", Trace)]
      + if l.connected then [LogEntry("Disconnected from N3FJP API.", Info)]
        else [LogEntry("Already disconnected.", Trace)]
  }

  /** Disconnecting twice is disconnecting once; the second call reports that
      the client was already disconnected. */
  lemma DisconnectIdempotent(l: Link)
    ensures DisconnectStep(DisconnectStep(l)) == DisconnectStep(l)
    ensures DisconnectLogs(DisconnectStep(l))[1] == LogEntry("Already disconnected.", Trace)
  {
  }

  /** A consistent link that is not connected is left as it is. */
  lemma DisconnectWhenDisconnected(l: Link)
    requires Consistent(l) && !l.connected
    ensures DisconnectStep(l) == l
  {
  }

  /** Disconnecting keeps a link consistent, whatever it was. */
  lemma DisconnectConsistent(l: Link)
    ensures Consistent(DisconnectStep(l))
  {
  }

  class ApiClient {
    const host: string
    const port: int
    const logger: Logger
    const hamClock: HamClockClient
    var link: Link

    /** The constructor past the creation of its dispatcher (see `Create`). */
    constructor (host: string, port: int, hamClock: HamClockClient)
      ensures this.host == host && this.port == port
      ensures this.hamClock == hamClock && this.logger == hamClock.logger
      ensures link == Link(false, NoSource) && Consistent(link)
    {
      this.host := host;
      this.port := port;
      this.hamClock := hamClock;
      this.logger := hamClock.logger;
      link := Link(false, NoSource);
    }

    /** `new ApiClient(host, port, config, logger)`: logs that it starts,
        then fails as the dispatcher's constructor does. */
    static method Create(host: string, port: int, config: string, isNumber: string -> bool, logger: Logger)
      returns (r: Result<ApiClient>)
      modifies logger
      ensures r.Failure? <==> ParseTargets(config).Failure?
      ensures r.Failure? ==> r.error == NoTargetsMessage
                             && logger.entries == old(logger.entries) + [InitializingLog()]
      ensures r.Success? ==> && fresh(r.value) && fresh(r.value.hamClock)
                             && r.value.host == host && r.value.port == port
                             && r.value.logger == logger && r.value.hamClock.logger == logger
                             && r.value.hamClock.isNumber == isNumber
                             && ParseTargets(config) == Success(r.value.hamClock.targets)
                             && r.value.link == Link(false, NoSource)
                             && logger.entries == old(logger.entries)
                                + [InitializingLog(), InitLog(|r.value.hamClock.targets|)]
    {
      logger.Log("Initializing API client...", Trace);
      var dispatcher := HamClockClient.Create(config, isNumber, logger);
      match dispatcher {
        case Failure(e) =>
          return Failure(e);
        case Success(h) =>
          var client := new ApiClient(host, port, h);
          return Success(client);
      }
    }

    /** The loop body past decoding: echo the message, then report an
        invalid one, skip an ignored one, or echo a call-tab event's fields
        and update the HamClocks with its coordinates. */
    method Handle(d: Decoded, ghost j: nat, net: Network)
      requires hamClock.logger == logger && j == |net.requests|
      modifies logger, net
      ensures var e := DecodedEffect(d, hamClock.targets, hamClock.isNumber, net.respond, j);
        logger.entries == old(logger.entries) + e.logs && net.requests == old(net.requests) + e.sent
    {
      logger.Log("[N3FJP API] " + d.message, Trace);
      match d.chunk {
        case Invalid(m) =>
          logger.Log("Invalid message received: " + m, Error);
          AppendAssoc(old(logger.entries), [ReceivedLog(d.message)], [InvalidMessageLog(m)]);
        case Ignored =>
        case CallTab(call, lat, lon) =>
          logger.Log("CallTab event received:", Info);
          logger.Log("  Call: " + call, Info);
          logger.Log("  Lat: " + lat, Info);
          logger.Log("  Lon: " + lon, Info);
          ghost var echo := [ReceivedLog(d.message)] + CallTabLogs(call, lat, lon);
          assert logger.entries == old(logger.entries) + echo;
          hamClock.UpdateHamClocks(lat, lon, net);
          AppendAssoc(old(logger.entries), echo,
                      UpdateEffect(hamClock.targets, hamClock.isNumber, lat, lon, net.respond, j).logs);
          CallTabEffect(d, hamClock.targets, hamClock.isNumber, net.respond, j);
      }
    }

    /** Handling `d` when the log and the requests so far are `before`
        extends them by its effect, to `after`. */
    method Advance(ghost before: Effect, d: Decoded, ghost after: Effect,
                   ghost start: seq<LogEntry>, ghost base: seq<string>, net: Network)
      requires hamClock.logger == logger
      requires after == before.Then(DecodedEffect(d, hamClock.targets, hamClock.isNumber, net.respond, |base| + |before.sent|))
      requires logger.entries == start + before.logs && net.requests == base + before.sent
      modifies logger, net
      ensures logger.entries == start + after.logs && net.requests == base + after.sent
    {
      ghost var c := DecodedEffect(d, hamClock.targets, hamClock.isNumber, net.respond, |base| + |before.sent|);
      Handle(d, |base| + |before.sent|, net);
      AppendAssoc(start, before.logs, c.logs);
      AppendAssoc(base, before.sent, c.sent);
    }

    /** One pass of the read loop: after the chunks `ds`, handling `d` leaves
        the log and the requests as the session of `ds + [d]`. */
    method Step(ghost ds: seq<Decoded>, d: Decoded, ghost start: seq<LogEntry>, ghost base: seq<string>, net: Network)
      requires hamClock.logger == logger
      requires logger.entries == start + SessionEffect(ds, hamClock.targets, hamClock.isNumber, net.respond, |base|).logs
      requires net.requests == base + SessionEffect(ds, hamClock.targets, hamClock.isNumber, net.respond, |base|).sent
      modifies logger, net
      ensures logger.entries == start + SessionEffect(ds + [d], hamClock.targets, hamClock.isNumber, net.respond, |base|).logs
      ensures net.requests == base + SessionEffect(ds + [d], hamClock.targets, hamClock.isNumber, net.respond, |base|).sent
    {
      SessionExtend(ds, d, hamClock.targets, hamClock.isNumber, net.respond, |base|);
      Advance(SessionEffect(ds, hamClock.targets, hamClock.isNumber, net.respond, |base|), d,
              SessionEffect(ds + [d], hamClock.targets, hamClock.isNumber, net.respond, |base|), start, base, net);
    }

    /** `Connect()`. `reachable` says whether opening the TCP connection
        succeeds, `chunks` are the reads that return data, `end` is how the
        next read ends, and `reconnects` whether the connection opened after
        the stream ends succeeds. `failed` is an exception escaping: an
        `ArgumentOutOfRangeException` for a port outside 0..65535, which
        nothing catches and nothing logs, or a `SocketException`. */
    method Connect(chunks: seq<string>, end: ReadEnd, reachable: bool, reconnects: bool, net: Network)
      returns (failed: bool)
      requires hamClock.logger == logger && Consistent(link)
      requires forall c :: c in chunks ==> c != ""
      modifies this, logger, net
      ensures Consistent(link)
      ensures !ValidPort(port) ==> && failed && link == old(link) && net.requests == old(net.requests)
                                   && logger.entries == old(logger.entries) + [ConnectingLog(host, port)]
      ensures ValidPort(port) && !reachable ==>
        && failed && link == old(link) && net.requests == old(net.requests)
        && logger.entries == old(logger.entries) + [ConnectingLog(host, port), ConnectErrorLog()]
      ensures ValidPort(port) && reachable ==>
        var s := SessionEffect(Decodes(chunks), hamClock.targets, hamClock.isNumber, net.respond, |old(net.requests)|);
        && link == Link(true, Live)
        && failed == (end == EndOfStream && !reconnects)
        && logger.entries == old(logger.entries) + [ConnectingLog(host, port), ConnectedLog()] + s.logs
        && net.requests == old(net.requests) + s.sent
    {
      logger.Log("Connecting to N3FJP API on " + host + ":" + IntToString(port) + "...", Trace);
      if !ValidPort(port) {
        return true;
      }
      if !reachable {
        logger.Log("Error connecting to N3FJP API", Error);
        return true;
      }
      link := link.(connected := true);
      logger.Log("Connected to N3FJP API server.", Info);
      link := link.(cancellation := Live);
      ghost var start := logger.entries;
      assert start == old(logger.entries) + [ConnectingLog(host, port), ConnectedLog()];
      ghost var k := |old(net.requests)|;
      for i := 0 to |chunks|
        invariant logger.entries == start + SessionEffect(Decodes(chunks[..i]), hamClock.targets, hamClock.isNumber, net.respond, k).logs
        invariant net.requests == old(net.requests) + SessionEffect(Decodes(chunks[..i]), hamClock.targets, hamClock.isNumber, net.respond, k).sent
        invariant link == Link(true, Live)
      {
        DecodesStep(chunks, i);
        Step(Decodes(chunks[..i]), Decode(chunks[i]), start, old(net.requests), net);
      }
      assert chunks[..|chunks|] == chunks;
      if end == ReadCancelled {
        return false;
      }
      // A new connection is opened once the stream ends; if that fails, the
      // exception leaves `Connect` unlogged and the old client stays.
      return !reconnects;
    }

    /** `Disconnect()`. */
    method Disconnect()
      modifies this, logger
      ensures link == DisconnectStep(old(link)) && Consistent(link)
      ensures logger.entries == old(logger.entries) + DisconnectLogs(old(link))
    {
      logger.Log("Disconnecting from N3FJP API...", Trace);
      if link.cancellation == Live {
        link := link.(cancellation := Cancelled);
      }
      if !link.connected {
        logger.Log("Already disconnected.", Trace);
        return;
      }
      link := link.(connected := false);
      logger.Log("Disconnected from N3FJP API.", Info);
    }
  }
}
