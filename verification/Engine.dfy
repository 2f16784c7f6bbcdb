/** The protocol engine: src/core/engine.rs, with the state of src/core/state.rs. */
module Engine {
  import opened Bytes
  import opened Options
  import opened Texts
  import opened StringMaps
  import opened Padding
  import opened Frames

  const PROTOCOL_VERSION: Byte := 2
  const MIN_PROTOCOL_VERSION: Byte := 2

  datatype State = State(padding: Factory, peerVersion: Byte, settingsReceived: bool)

  function NewState(padding: Factory): State { State(padding, 0, false) }

  datatype Action =
    | SendFrame(frame: Frame)
    | SendFrameSync(frame: Frame)
    | PushStreamData(sid: U32, data: seq<Byte>)
    | EnsureIncomingStream(sid: U32)
    | CloseLocalStream(sid: U32)
    | CloseRemoteStream(sid: U32, message: Text)
    | ReleaseWriteBuffering
    | AlertAndFail(message: Text)

  function VersionKey(): Text { Ascii("v") }
  function ClientKey(): Text { Ascii("client") }
  function Md5Key(): Text { Ascii("padding-md5") }

  function ClientSettings(clientName: Text, md5: Text): StringMap
  {
    map[VersionKey() := Decimal(PROTOCOL_VERSION), ClientKey() := clientName, Md5Key() := md5]
  }

  function SettingsFrame(order: seq<(Text, Text)>): Frame
  {
    Frame(Settings, 0, Print(order))
  }

  function ServerSettingsFrame(version: Byte): Frame
  {
    Frame(ServerSettings, 0, Print([(VersionKey(), Decimal(version))]))
  }

  /** `on_session_start`; `order` is the order in which the client's settings map is printed. */
  function OnSessionStart(isClient: bool, order: seq<(Text, Text)>): seq<Action>
  {
    if isClient then [SendFrame(SettingsFrame(order))] else []
  }

  /** The version a settings text declares, if it is a number that fits a byte. */
  function DeclaredVersion(settings: StringMap): (r: Option<Byte>)
  {
    if VersionKey() !in settings then None
    else
      match ParseUnsigned(settings[VersionKey()], 255)
      case None => None
      case Some(n) => Some(n)
  }

  function OnSettings(st: State, settings: StringMap): (State, seq<Action>)
  {
    var update :=
      if Md5Key() in settings && settings[Md5Key()] == st.padding.md5 then []
      else [SendFrameSync(Frame(UpdatePaddingScheme, 0, st.padding.raw))];
    var st' := st.(settingsReceived := true);
    match DeclaredVersion(settings)
    case Some(version) =>
      if version >= MIN_PROTOCOL_VERSION then
        (st'.(peerVersion := version), update + [SendFrameSync(ServerSettingsFrame(version))])
      else (st', update)
    case None => (st', update)
  }

  /** `on_frame`: the new protocol state and the actions asked of the session. */
  function OnFrame(digest: Text -> Text, st: State, isClient: bool, frame: Frame): (State, seq<Action>)
  {
    match frame.cmd
    case Psh => (st, if frame.data != [] then [PushStreamData(frame.sid, frame.data)] else [])
    case Syn =>
      (st, if isClient then []
           else if !st.settingsReceived then [AlertAndFail(Ascii("client did not send its settings"))]
           else [EnsureIncomingStream(frame.sid)])
    case Fin => (st, [CloseLocalStream(frame.sid)])
    case Settings => if isClient || frame.data == [] then (st, []) else OnSettings(st, Read(frame.data))
    case UpdatePaddingScheme =>
      if !isClient || frame.data == [] then (st, [])
      else
        (match NewFactory(digest, frame.data)
         case None => (st, [])
         case Some(padding) => (st.(padding := padding), []))
    case HeartRequest => (st, [SendFrame(Frame(HeartResponse, frame.sid, []))])
    case ServerSettings =>
      if !isClient || frame.data == [] then (st, [])
      else
        (match DeclaredVersion(Read(frame.data))
         case None => (st, [])
         case Some(version) => (st.(peerVersion := version), []))
    case SynAck => (st, if frame.data != [] then [CloseRemoteStream(frame.sid, frame.data)] else [])
    case _ => (st, [])
  }

  // ---- The opening exchange ----

  /** The frames a list of actions sends. */
  function Sent(actions: seq<Action>): seq<Frame>
  {
    if actions == [] then []
    else (if actions[0].SendFrame? || actions[0].SendFrameSync? then [actions[0].frame] else []) + Sent(actions[1..])
  }

  /** A client starts with its settings. */
  lemma FirstFrame(order: seq<(Text, Text)>)
    ensures Sent(OnSessionStart(true, order)) == [SettingsFrame(order)]
  {
    var action := SendFrame(SettingsFrame(order));
    assert [action][1..] == [];
  }

  /** The protocol state after a list of frames, and all frames sent in reply. */
  function Converse(digest: Text -> Text, st: State, isClient: bool, fs: seq<Frame>): (State, seq<Frame>)
    decreases |fs|
  {
    if fs == [] then (st, [])
    else
      var (st', actions) := OnFrame(digest, st, isClient, fs[0]);
      var (st'', replies) := Converse(digest, st', isClient, fs[1..]);
      (st'', Sent(actions) + replies)
  }

  lemma ConverseOne(digest: Text -> Text, st: State, isClient: bool, f: Frame)
    ensures var (st', actions) := OnFrame(digest, st, isClient, f);
            Converse(digest, st, isClient, [f]) == (st', Sent(actions))
  {
    assert [f][1..] == [];
    var (st', actions) := OnFrame(digest, st, isClient, f);
    assert Sent(actions) + [] == Sent(actions);
  }

  lemma VersionPrintable(version: Byte)
    ensures Printable(VersionKey(), Decimal(version)) && |Decimal(version)| <= 3
  {
    var t := Decimal(version);
    assert forall i :: 0 <= i < |t| ==> IsDigit(t[i]);
    assert version / 10 / 10 < 10;
    assert |Decimal(version / 10)| <= 2;
  }

  /** The text of a version number is a settings text that declares that version. */
  lemma ServerSettingsRead(version: Byte)
    ensures ServerSettingsFrame(version).data != [] && ServerSettingsFrame(version).Fits()
    ensures DeclaredVersion(Read(ServerSettingsFrame(version).data)) == Some(version)
  {
    var settings := map[VersionKey() := Decimal(version)];
    var order := [(VersionKey(), Decimal(version))];
    assert MapOf(order) == settings by {
      assert order[1..] == [];
    }
    VersionPrintable(version);
    SettingsRoundTrip(settings, order);
    ParseDecimal(version, 255);
  }

  lemma ClientSettingsRead(clientName: Text, md5: Text, order: seq<(Text, Text)>)
    requires IterationOrder(order, ClientSettings(clientName, md5))
    requires Printable(ClientKey(), clientName) && Printable(Md5Key(), md5)
    ensures Print(order) != [] && Read(Print(order)) == ClientSettings(clientName, md5)
  {
    var settings := ClientSettings(clientName, md5);
    VersionPrintable(PROTOCOL_VERSION);
    SettingsRoundTrip(settings, order);
    assert VersionKey() in settings;
    assert Read([]) == map[];
  }

  lemma SettingsAnswered(st: State, clientName: Text, md5: Text)
    ensures var (st', actions) := OnSettings(st, ClientSettings(clientName, md5));
            && st' == st.(settingsReceived := true, peerVersion := 2)
            && Sent(actions) == SchemeUpdate(st.padding, md5) + [ServerSettingsFrame(2)]
  {
    var settings := ClientSettings(clientName, md5);
    assert DeclaredVersion(settings) == Some(2) by {
      ParseDecimal(PROTOCOL_VERSION, 255);
    }
    assert settings[Md5Key()] == md5;
    var answer := SendFrameSync(ServerSettingsFrame(2));
    SentOne(answer);
    if md5 == st.padding.md5 {
      assert [] + [answer] == [answer];
    } else {
      var update := SendFrameSync(Frame(UpdatePaddingScheme, 0, st.padding.raw));
      assert ([update] + [answer])[1..] == [answer];
    }
  }

  /** The texts the two ends exchange, for the order in which the client's entries are inserted. */
  lemma SettingsTexts(clientName: Text, md5: Text)
    ensures var order := [(VersionKey(), Decimal(PROTOCOL_VERSION)), (ClientKey(), clientName), (Md5Key(), md5)];
            && MapOf(order) == ClientSettings(clientName, md5)
            && SettingsFrame(order).data == Ascii("v=2\nclient=") + clientName + Ascii("\npadding-md5=") + md5
    ensures ServerSettingsFrame(2).data == Ascii("v=2")
  {
    LineTexts(clientName, md5);
    ThreeEntries((VersionKey(), Decimal(PROTOCOL_VERSION)), (ClientKey(), clientName), (Md5Key(), md5));
    hide Ascii, Line, Decimal, Print, MapOf;
    Regroup(Ascii("v=2"), Ascii("client="), clientName, Ascii("padding-md5=") + md5);
    Assoc(Ascii("v=2\nclient=") + clientName, [LF], Ascii("padding-md5=") + md5);
    Assoc(Ascii("v=2\nclient=") + clientName, Ascii("\npadding-md5="), md5);
    Assoc([LF], Ascii("padding-md5="), md5);
    assert Print([(VersionKey(), Decimal(2))]) == Line(VersionKey(), Decimal(2)) by { OneEntry(VersionKey(), Decimal(2)); }
  }

  lemma OneEntry(key: Text, value: Text)
    ensures Print([(key, value)]) == Line(key, value)
  {
  }

  lemma Regroup(a: Text, b: Text, c: Text, d: Text)
    ensures a + [LF] + ((b + c) + [LF] + d) == (a + [LF] + b) + c + [LF] + d
  {
  }

  lemma ThreeEntries(v: (Text, Text), c: (Text, Text), m: (Text, Text))
    ensures MapOf([v, c, m]) == map[v.0 := v.1, c.0 := c.1, m.0 := m.1]
    ensures Print([v, c, m]) == Line(v.0, v.1) + [LF] + (Line(c.0, c.1) + [LF] + Line(m.0, m.1))
  {
    hide Line;
    assert [v, c, m][1..] == [c, m] && [c, m][1..] == [m];
    MapOfOne(m);
    assert MapOf([c, m]) == map[c.0 := c.1] + MapOf([m]);
    assert Print([c, m]) == Line(c.0, c.1) + [LF] + Line(m.0, m.1);
  }

  lemma MapOfOne(entry: (Text, Text))
    ensures MapOf([entry]) == map[entry.0 := entry.1]
  {
    var none: seq<(Text, Text)> := [];
    assert [entry][1..] == none;
  }

  lemma LineTexts(clientName: Text, md5: Text)
    ensures Line(VersionKey(), Decimal(2)) == Ascii("v=2")
    ensures Line(ClientKey(), clientName) == Ascii("client=") + clientName
    ensures Line(Md5Key(), md5) == Ascii("padding-md5=") + md5
    ensures Ascii("v=2\nclient=") == Ascii("v=2") + [LF] + Ascii("client=")
    ensures Ascii("\npadding-md5=") == [LF] + Ascii("padding-md5=")
  {
    assert Ascii("client=") == ClientKey() + [EQUALS];
    assert Ascii("padding-md5=") == Md5Key() + [EQUALS];
  }

  lemma SentOne(action: Action)
    requires action.SendFrameSync?
    ensures Sent([action]) == [action.frame]
  {
    assert [action][1..] == [];
  }

  /** The scheme frame a server sends to a client that reports a different digest. */
  function SchemeUpdate(padding: Factory, md5: Text): seq<Frame>
  {
    if md5 == padding.md5 then [] else [Frame(UpdatePaddingScheme, 0, padding.raw)]
  }

  /** The server's answer to the client's settings. */
  lemma ServerAnswers(digest: Text -> Text, st: State, clientName: Text, md5: Text, order: seq<(Text, Text)>)
    requires IterationOrder(order, ClientSettings(clientName, md5))
    requires Printable(ClientKey(), clientName) && Printable(Md5Key(), md5)
    ensures Converse(digest, st, false, [SettingsFrame(order)])
         == (st.(settingsReceived := true, peerVersion := 2), SchemeUpdate(st.padding, md5) + [ServerSettingsFrame(2)])
  {
    ClientSettingsRead(clientName, md5, order);
    SettingsAnswered(st, clientName, md5);
    ConverseOne(digest, st, false, SettingsFrame(order));
  }

  /** The server's answer to any client: its scheme unless the digest is known to be the same, and the
      client's own version, which it records, if that is at least 2. */
  lemma AnyVersionAnswered(digest: Text -> Text, st: State, settings: StringMap, order: seq<(Text, Text)>, version: Byte)
    requires IterationOrder(order, settings) && forall key :: key in settings ==> Printable(key, settings[key])
    requires VersionKey() in settings && settings[VersionKey()] == Decimal(version)
    ensures var (st', replies) := Converse(digest, st, false, [SettingsFrame(order)]);
            && st' == st.(settingsReceived := true, peerVersion := if version >= 2 then version else st.peerVersion)
            && replies == (if Md5Key() in settings && settings[Md5Key()] == st.padding.md5 then []
                           else [Frame(UpdatePaddingScheme, 0, st.padding.raw)])
                          + if version >= 2 then [ServerSettingsFrame(version)] else []
  {
    hide Print, Read, Decimal, Ascii, Printable, ServerSettingsFrame;
    SettingsRoundTrip(settings, order);
    assert Print(order) != [] by {
      NothingReads();
    }
    ConverseOne(digest, st, false, SettingsFrame(order));
    AnyVersionActions(st, settings, version);
  }

  lemma NothingReads()
    ensures Read([]) == map[]
  {
  }

  lemma AnyVersionActions(st: State, settings: StringMap, version: Byte)
    requires VersionKey() in settings && settings[VersionKey()] == Decimal(version)
    ensures var (st', actions) := OnSettings(st, settings);
            && st' == st.(settingsReceived := true, peerVersion := if version >= 2 then version else st.peerVersion)
            && Sent(actions) == (if Md5Key() in settings && settings[Md5Key()] == st.padding.md5 then []
                                 else [Frame(UpdatePaddingScheme, 0, st.padding.raw)])
                                + if version >= 2 then [ServerSettingsFrame(version)] else []
  {
    hide Decimal, Ascii, ServerSettingsFrame;
    ParseDecimal(version, 255);
    var answer := SendFrameSync(ServerSettingsFrame(version));
    var update := SendFrameSync(Frame(UpdatePaddingScheme, 0, st.padding.raw));
    SentOne(answer);
    SentOne(update);
    assert ([update] + [answer])[1..] == [answer] && [] + [answer] == [answer] && [update] + [] == [update];
  }

  lemma WireCarries(fs: seq<Frame>)
    requires AllFit(fs)
    ensures Parsed(EncodeAll(fs)) == fs
  {
    ParseEncodeAll(fs, []);
    assert EncodeAll(fs) + [] == EncodeAll(fs);
    assert fs + Parsed([]) == fs;
  }

  lemma ConverseTwo(digest: Text -> Text, st: State, isClient: bool, f: Frame, g: Frame)
    ensures Converse(digest, st, isClient, [f] + [g]).0
         == Converse(digest, OnFrame(digest, st, isClient, f).0, isClient, [g]).0
  {
    assert ([f] + [g])[1..] == [g];
  }

  lemma ClientOnAnswer(digest: Text -> Text, st: State)
    ensures Converse(digest, st, true, [ServerSettingsFrame(2)]).0 == st.(peerVersion := 2)
  {
    ServerSettingsRead(2);
    ConverseOne(digest, st, true, ServerSettingsFrame(2));
  }

  lemma ClientAdopts(digest: Text -> Text, client: Factory, server: Factory)
    requires NewFactory(digest, server.raw) == Some(server)
    ensures var c := Converse(digest, NewState(client), true, SchemeUpdate(server, client.md5) + [ServerSettingsFrame(2)]).0;
            && c.peerVersion == 2 && c.padding.md5 == server.md5
            && c.padding == if client.md5 == server.md5 then client else server
  {
    var answer := ServerSettingsFrame(2);
    if client.md5 == server.md5 {
      assert SchemeUpdate(server, client.md5) + [answer] == [answer];
      ClientOnAnswer(digest, NewState(client));
    } else {
      ConverseTwo(digest, NewState(client), true, Frame(UpdatePaddingScheme, 0, server.raw), answer);
      ClientOnAnswer(digest, NewState(client).(padding := server));
    }
  }

  /** The server's side of the opening: it reads the client's settings off the wire. */
  function ServerOpening(digest: Text -> Text, server: Factory, order: seq<(Text, Text)>): (State, seq<Frame>)
  {
    Converse(digest, NewState(server), false, Parsed(EncodeAll([SettingsFrame(order)])))
  }

  /** The client's side: it reads the server's replies off the wire. */
  function ClientOpening(digest: Text -> Text, client: Factory, replies: seq<Frame>): State
  {
    Converse(digest, NewState(client), true, Parsed(EncodeAll(replies))).0
  }

  /** Negotiation agrees: whatever schemes the two ends start with and whatever order the
      settings are printed in, after the opening exchange, carried over the wire in both
      directions, both ends record version 2 and padding schemes with the same digest; a client
      whose digest differed has the server's whole scheme. */
  lemma NegotiationAgrees(digest: Text -> Text, client: Factory, server: Factory,
                          clientName: Text, order: seq<(Text, Text)>)
    requires NewFactory(digest, server.raw) == Some(server)
    requires IterationOrder(order, ClientSettings(clientName, client.md5))
    requires Printable(ClientKey(), clientName) && Printable(Md5Key(), client.md5)
    requires |Print(order)| < 0x1_0000 && |server.raw| < 0x1_0000
    ensures var (s, replies) := ServerOpening(digest, server, order);
            var c := ClientOpening(digest, client, replies);
            && c.peerVersion == s.peerVersion == 2
            && c.padding.md5 == s.padding.md5
            && (client.md5 != server.md5 ==> c.padding == s.padding)
            && s.padding == server && s.settingsReceived
  {
    WireCarries([SettingsFrame(order)]);
    ServerAnswers(digest, NewState(server), clientName, client.md5, order);
    var (s, replies) := ServerOpening(digest, server, order);
    assert replies == SchemeUpdate(server, client.md5) + [ServerSettingsFrame(2)];
    RepliesFit(server, client.md5);
    WireCarries(replies);
    ClientAdopts(digest, client, server);
  }

  lemma RepliesFit(server: Factory, md5: Text)
    requires |server.raw| < 0x1_0000
    ensures AllFit(SchemeUpdate(server, md5) + [ServerSettingsFrame(2)])
  {
    ServerSettingsRead(2);
  }
}
