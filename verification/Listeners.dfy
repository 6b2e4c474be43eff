/**
 Listeners and the printers of internal/controller/listener.go, with the readers that a Kafka
 broker applies to the printed text.
 */
module Listeners {
  import opened Wrappers
  import opened Text

  const LISTENER_LOCAL_ADDRESS := "0.0.0.0"
  const LISTENER_BROKER_DIR := "/kubedoop/listener-broker"

  const PLAINTEXT := "PLAINTEXT"
  const SSL := "SSL"

  const CLIENT := "CLIENT"
  const CLIENT_AUTH := "CLIENT_AUTH"
  const INTERNAL := "INTERNAL"
  const BOOTSTRAP := "BOOTSTRAP"

  const SCHEME := "://"

  datatype KafkaListener = KafkaListener(name: string, host: string, port: string)
  {
    function Text(): string
    {
      name + SCHEME + (host + [':'] + port)
    }
  }

  datatype KafkaListenerConfig = KafkaListenerConfig(
    listeners: seq<KafkaListener>,
    advertisedListeners: seq<KafkaListener>,
    protocols: map<string, string>)

  /** What the launch command passes to a broker: a properties file, and three settings that override it. */
  datatype LaunchTexts = LaunchTexts(properties: string, listeners: string, advertised: string, protocols: string)

  // ---------- printing ----------

  function ListenerText(l: KafkaListener): string
  {
    l.Text()
  }

  function ListenersText(listeners: seq<KafkaListener>): string
  {
    Join(Map(ListenerText, listeners), ',')
  }

  /** The loop shared by `ListenersString` and `AdvertisedListenersString`. */
  method ListenersString(listeners: seq<KafkaListener>) returns (s: string)
    ensures s == ListenersText(listeners)
  {
    var texts := [];
    for i := 0 to |listeners|
      invariant texts == Map(ListenerText, listeners[..i])
    {
      texts := texts + [listeners[i].Text()];
    }
    assert listeners[..|listeners|] == listeners;
    s := Join(texts, ',');
  }

  // ---------- reading ----------

  function ParseListener(s: string): (r: Option<KafkaListener>)
    ensures r.Some? ==> r.value.Text() == s
  {
    var scheme := CutFirst(s, SCHEME);
    if scheme.None? then None
    else
      var address := CutLast(scheme.value.1, ':');
      if address.None? then None
      else Some(KafkaListener(scheme.value.0, address.value.0, address.value.1))
  }

  function ParseListeners(s: string): Option<seq<KafkaListener>>
  {
    ReadList(s, ',', ParseListener)
  }

  /** What a listener must satisfy for its printed form to be read back as the same listener. */
  predicate Readable(l: KafkaListener)
  {
    && ',' !in l.name && ',' !in l.host && ',' !in l.port
    && CutFirst(l.name, SCHEME).None?
    && ':' !in l.port
  }

  lemma ParseListenerText(l: KafkaListener)
    ensures ParseListener(l.Text()) == Some(l) <==> CutFirst(l.name, SCHEME).None? && ':' !in l.port
  {
    var rest := l.host + [':'] + l.port;
    CutFirstAt(l.name, SCHEME, rest);
    var cut := CutFirst(l.Text(), SCHEME);
    if cut.Some? && cut.value.0 == l.name {
      assert rest == l.Text()[|l.name| + |SCHEME|..] == cut.value.1;
      if ':' !in l.port {
        CutLastAt(l.host, ':', l.port);
      }
    }
  }

  /**
   For every list of listeners, of any length: printing it and reading the text back gives the
   same list if and only if every listener is readable.
   */
  lemma ListenersRoundTrip(listeners: seq<KafkaListener>)
    ensures ParseListeners(ListenersText(listeners)) == Some(listeners)
            <==> forall i | 0 <= i < |listeners| :: Readable(listeners[i])
  {
    assert Sound(ListenerText, ParseListener);
    ListRoundTrip(listeners, ',', ListenerText, ParseListener);
    forall i | 0 <= i < |listeners|
      ensures Readable(listeners[i]) <==>
              ',' !in ListenerText(listeners[i]) && ParseListener(ListenerText(listeners[i])) == Some(listeners[i])
    {
      ParseListenerText(listeners[i]);
      TextComma(listeners[i]);
    }
  }

  lemma TextComma(l: KafkaListener)
    ensures ',' in l.Text() <==> ',' in l.name || ',' in l.host || ',' in l.port
  {
  }

  /** Every text a broker can read is the printed form of what it reads. */
  lemma ReadListenersPrintBack(s: string)
    requires ParseListeners(s).Some?
    ensures ListenersText(ParseListeners(s).value) == s
  {
    ReadListSound(s, ',', ListenerText, ParseListener);
  }

  /** Two readable lists that print alike are the same list. */
  lemma ListenersTextInjective(a: seq<KafkaListener>, b: seq<KafkaListener>)
    requires forall i | 0 <= i < |a| :: Readable(a[i])
    requires forall i | 0 <= i < |b| :: Readable(b[i])
    requires ListenersText(a) == ListenersText(b)
    ensures a == b
  {
    ListenersRoundTrip(a);
    ListenersRoundTrip(b);
  }

  // ---------- the protocol map ----------

  datatype ProtocolEntry = ProtocolEntry(name: string, protocol: string)

  function EntryText(e: ProtocolEntry): string
  {
    e.name + ":" + e.protocol
  }

  function ParseEntry(s: string): (r: Option<ProtocolEntry>)
    ensures r.Some? ==> EntryText(r.value) == s
  {
    var cut := CutFirst(s, ":");
    if cut.None? then None else Some(ProtocolEntry(cut.value.0, cut.value.1))
  }

  /** The map a list of entries denotes; a later entry wins. */
  function EntriesMap(entries: seq<ProtocolEntry>): map<string, string>
  {
    if entries == [] then map[]
    else
      var last := entries[|entries| - 1];
      EntriesMap(entries[..|entries| - 1])[last.name := last.protocol]
  }

  function ParseProtocols(s: string): Option<map<string, string>>
  {
    var entries := ReadList(s, ',', ParseEntry);
    if entries.None? then None else Some(EntriesMap(entries.value))
  }

  predicate ReadableEntry(e: ProtocolEntry)
  {
    ',' !in e.name && ',' !in e.protocol && ':' !in e.name
  }

  predicate ReadableProtocols(protocols: map<string, string>)
  {
    forall name | name in protocols :: ReadableEntry(ProtocolEntry(name, protocols[name]))
  }

  /**
   The printer, under every map iteration order: the text is read back as the same map if and only
   if names are free of ',' and ':' and protocols are free of ','.
   */
  method ListenerSecurityProtocolMapString(protocols: map<string, string>) returns (s: string)
    ensures ParseProtocols(s) == Some(protocols) <==> ReadableProtocols(protocols)
    ensures Lists(s, protocols)
  {
    var texts := [];
    var todo := protocols.Keys;
    ghost var entries: seq<ProtocolEntry> := [];
    while todo != {}
      invariant todo <= protocols.Keys
      invariant texts == Map(EntryText, entries)
      invariant EntriesOf(entries, protocols, protocols.Keys - todo)
    {
      var name :| name in todo;
      texts := texts + [name + ":" + protocols[name]];
      EntriesOfAppend(entries, protocols, protocols.Keys - todo, name);
      entries := entries + [ProtocolEntry(name, protocols[name])];
      assert protocols.Keys - (todo - {name}) == protocols.Keys - todo + {name};
      todo := todo - {name};
    }
    s := Join(texts, ',');
    assert protocols.Keys - todo == protocols.Keys;
    ProtocolsRoundTrip(entries, protocols);
  }

  /** `s` is the map's entries, in some order. */
  ghost predicate Lists(s: string, protocols: map<string, string>)
  {
    exists entries :: EntriesOf(entries, protocols, protocols.Keys) && s == Join(Map(EntryText, entries), ',')
  }

  /** `entries` lists, in some order, the bindings of `protocols` for the names in `done`. */
  ghost predicate EntriesOf(entries: seq<ProtocolEntry>, protocols: map<string, string>, done: set<string>)
  {
    && EntriesMap(entries) == (map name | name in protocols && name in done :: protocols[name])
    && (forall i | 0 <= i < |entries| ::
          entries[i].name in protocols && entries[i].protocol == protocols[entries[i].name])
  }

  lemma EntriesOfAppend(entries: seq<ProtocolEntry>, protocols: map<string, string>, done: set<string>, name: string)
    requires EntriesOf(entries, protocols, done)
    requires name in protocols
    ensures EntriesOf(entries + [ProtocolEntry(name, protocols[name])], protocols, done + {name})
  {
    var longer := entries + [ProtocolEntry(name, protocols[name])];
    assert longer[..|longer| - 1] == entries;
  }

  lemma ParseEntryText(e: ProtocolEntry)
    ensures ParseEntry(EntryText(e)) == Some(e) <==> CutFirst(e.name, ":").None?
  {
    CutFirstAt(e.name, ":", e.protocol);
    var cut := CutFirst(EntryText(e), ":");
    if cut.Some? && cut.value.0 == e.name {
      assert e.protocol == EntryText(e)[|e.name| + 1..] == cut.value.1;
    }
  }

  lemma {:induction false} CutColon(s: string)
    ensures CutFirst(s, ":").None? <==> ':' !in s
  {
    if s != "" {
      CutColon(s[1..]);
      assert s == [s[0]] + s[1..];
      assert ":" <= s <==> s[0] == ':';
    }
  }

  /** Whatever is read has comma-free parts and colon-free names. */
  lemma ReadEntriesAreReadable(s: string)
    requires ReadList(s, ',', ParseEntry).Some?
    ensures var entries := ReadList(s, ',', ParseEntry).value;
            forall i | 0 <= i < |entries| :: ReadableEntry(entries[i])
  {
    var entries := ReadList(s, ',', ParseEntry).value;
    forall i | 0 <= i < |entries|
      ensures ReadableEntry(entries[i])
    {
      var piece := Split(s, ',')[i];
      assert EntryText(entries[i]) == piece;
      ParseEntryText(entries[i]);
      CutColon(entries[i].name);
      EntryComma(entries[i]);
    }
  }

  lemma EntryComma(e: ProtocolEntry)
    ensures ',' in EntryText(e) <==> ',' in e.name || ',' in e.protocol
  {
  }

  lemma {:induction false} EntriesMapMembers(entries: seq<ProtocolEntry>, name: string)
    requires name in EntriesMap(entries)
    ensures exists i :: 0 <= i < |entries| && entries[i] == ProtocolEntry(name, EntriesMap(entries)[name])
  {
    var n := |entries| - 1;
    if entries[n].name != name {
      EntriesMapMembers(entries[..n], name);
      var i :| 0 <= i < n && entries[..n][i] == ProtocolEntry(name, EntriesMap(entries[..n])[name]);
      assert entries[i] == ProtocolEntry(name, EntriesMap(entries)[name]);
    }
  }

  lemma ProtocolsRoundTrip(entries: seq<ProtocolEntry>, protocols: map<string, string>)
    requires EntriesOf(entries, protocols, protocols.Keys)
    ensures ParseProtocols(Join(Map(EntryText, entries), ',')) == Some(protocols) <==> ReadableProtocols(protocols)
  {
    var s := Join(Map(EntryText, entries), ',');
    assert EntriesMap(entries) == protocols;
    if ReadableProtocols(protocols) {
      assert Sound(EntryText, ParseEntry);
      ListRoundTrip(entries, ',', EntryText, ParseEntry);
      forall i | 0 <= i < |entries|
        ensures ',' !in EntryText(entries[i]) && ParseEntry(EntryText(entries[i])) == Some(entries[i])
      {
        assert ReadableEntry(ProtocolEntry(entries[i].name, protocols[entries[i].name]));
        ParseEntryText(entries[i]);
        CutColon(entries[i].name);
        EntryComma(entries[i]);
      }
    }
    if ParseProtocols(s) == Some(protocols) {
      ReadEntriesAreReadable(s);
      var read := ReadList(s, ',', ParseEntry).value;
      forall name | name in protocols
        ensures ReadableEntry(ProtocolEntry(name, protocols[name]))
      {
        EntriesMapMembers(read, name);
      }
    }
  }

  /** The formats that a broker expects. */
  lemma TextsAsDocumented(l: KafkaListener, m: KafkaListener, e: ProtocolEntry, f: ProtocolEntry)
    ensures ListenersText([l, m])
         == l.name + "://" + l.host + ":" + l.port + ("," + (m.name + "://" + m.host + ":" + m.port))
    ensures Join(Map(EntryText, [e, f]), ',') == e.name + ":" + e.protocol + ("," + (f.name + ":" + f.protocol))
  {
    JoinTwo(l.Text(), m.Text());
    assert Map(ListenerText, [l, m]) == [l.Text(), m.Text()];
    Flat(l.name, "://", l.host, ":", l.port);
    Flat(m.name, "://", m.host, ":", m.port);
    JoinTwo(EntryText(e), EntryText(f));
    assert Map(EntryText, [e, f]) == [EntryText(e), EntryText(f)];
  }

  lemma JoinTwo(a: string, b: string)
    ensures Join([a, b], ',') == a + ("," + b)
  {
    assert [a, b][1..] == [b];
  }

  lemma Flat(a: string, b: string, c: string, d: string, e: string)
    ensures a + b + (c + d + e) == a + b + c + d + e
  {
  }
}
