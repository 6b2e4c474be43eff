/**
 The listener overrides of the launch command (internal/controller/container.go) after the shell
 has expanded them: which listeners a broker is told to advertise, given the files and variables of
 its container.
 */
module ResolvedListeners {
  import opened Text
  import opened Shell
  import opened Security
  import opened Listeners
  import opened ListenerCompiler

  const POD_NAME := "POD_NAME"
  const ADDRESS_FILE: string := LISTENER_BROKER_DIR + "/default-address/address"

  function PortFile(k: KafkaSecurity): string
  {
    LISTENER_BROKER_DIR + "/default-address/ports/" + k.ClientPortName()
  }

  function Domain(namespace: string, objectName: string): string
  {
    objectName + "." + namespace + ".svc.cluster.local"
  }

  /** The advertised listeners with the address and port of the broker's listener and the pod's name filled in. */
  function Resolved(namespace: string, k: KafkaSecurity, objectName: string, env: Environment)
    : (listeners: seq<KafkaListener>)
    ensures |listeners| == |Names(k)|
    ensures forall i | 0 <= i < |listeners| :: listeners[i].name == Names(k)[i]
  {
    seq(|Names(k)|, i requires 0 <= i < |Names(k)| =>
      if i == 1 then KafkaListener(INTERNAL, Lookup(env.variables, POD_NAME) + "." + Domain(namespace, objectName),
                                   Decimal(k.InternalPort()))
      else KafkaListener(Names(k)[i], Lookup(env.files, ADDRESS_FILE), Lookup(env.files, PortFile(k))))
  }

  function ResolvedConfig(namespace: string, k: KafkaSecurity, objectName: string, env: Environment)
    : KafkaListenerConfig
  {
    KafkaListenerConfig(Bound(k), Resolved(namespace, k, objectName, env), Protocols(k))
  }

  // ---------- the advertised text in pieces ----------

  function ExternalPieces(name: string, host: Piece, port: Piece): seq<Piece>
  {
    [Plain(name + SCHEME), host, Plain([':']), port]
  }

  function InternalPieces(name: string, pod: Piece, domain: string, port: string): seq<Piece>
  {
    [Plain(name + SCHEME), pod, Plain(domain + [':'] + port)]
  }

  lemma ShowThree(a: Piece, b: Piece, c: Piece, env: Environment)
    ensures Show([a, b, c]) == a.Text() + (b.Text() + c.Text())
    ensures Results([a, b, c], env) == a.Result(env) + (b.Result(env) + c.Result(env))
  {
    assert [a, b, c][1..] == [b, c] && [b, c][1..] == [c] && [c][1..] == [];
    assert Show([c]) == c.Text() && Results([c], env) == c.Result(env);
    assert Show([b, c]) == b.Text() + c.Text() && Results([b, c], env) == b.Result(env) + c.Result(env);
  }

  lemma ShowFour(a: Piece, b: Piece, c: Piece, d: Piece, env: Environment)
    ensures Show([a, b, c, d]) == a.Text() + (b.Text() + (c.Text() + d.Text()))
    ensures Results([a, b, c, d], env) == a.Result(env) + (b.Result(env) + (c.Result(env) + d.Result(env)))
  {
    ShowThree(b, c, d, env);
    assert [a, b, c, d][1..] == [b, c, d];
  }

  lemma ExternalText(name: string, host: Piece, port: Piece, env: Environment)
    ensures Show(ExternalPieces(name, host, port)) == KafkaListener(name, host.Text(), port.Text()).Text()
    ensures Results(ExternalPieces(name, host, port), env)
              == KafkaListener(name, host.Result(env), port.Result(env)).Text()
  {
    ShowFour(Plain(name + SCHEME), host, Plain([':']), port, env);
    Associative(host.Text(), [':'], port.Text());
    Associative(host.Result(env), [':'], port.Result(env));
  }

  lemma InternalText(name: string, pod: Piece, domain: string, port: string, env: Environment)
    ensures Show(InternalPieces(name, pod, domain, port)) == KafkaListener(name, pod.Text() + domain, port).Text()
    ensures Results(InternalPieces(name, pod, domain, port), env)
              == KafkaListener(name, pod.Result(env) + domain, port).Text()
  {
    ShowThree(Plain(name + SCHEME), pod, Plain(domain + [':'] + port), env);
    HostPort(pod.Text(), domain, port);
    HostPort(pod.Result(env), domain, port);
  }

  lemma HostPort(pod: string, domain: string, port: string)
    ensures pod + (domain + [':'] + port) == pod + domain + [':'] + port
  {
  }

  /** The commands of the source, as pieces. */
  lemma CommandPieces(directory: string, portName: string)
    ensures File(directory + "/default-address/address").Text() == NodeAddressCmd(directory)
    ensures File(directory + "/default-address/ports/" + portName).Text() == NodePortCmd(directory, portName)
  {
    assert "/default-address/address)" == "/default-address/address" + ")";
  }

  lemma FqdnPieces(namespace: string, objectName: string)
    ensures Variable(POD_NAME, '.').Text() + Domain(namespace, objectName) == PodFqdn(namespace, objectName)
  {
    assert "$" + POD_NAME + ['.'] == "$POD_NAME.";
  }

  // ---------- what the broker is told ----------

  function AdvertisedPieces(namespace: string, k: KafkaSecurity, objectName: string): (items: seq<seq<Piece>>)
    ensures |items| == |Names(k)|
  {
    seq(|Names(k)|, i requires 0 <= i < |Names(k)| =>
      if i == 1 then InternalPieces(INTERNAL, Variable(POD_NAME, '.'), Domain(namespace, objectName),
                                    Decimal(k.InternalPort()))
      else ExternalPieces(Names(k)[i], File(ADDRESS_FILE), File(PortFile(k))))
  }

  lemma LiteralNames(k: KafkaSecurity)
    ensures forall i | 0 <= i < |Names(k)| :: '$' !in Names(k)[i]
    ensures '$' !in SCHEME && '$' !in PLAINTEXT && '$' !in SSL && '$' !in LISTENER_LOCAL_ADDRESS
  {
  }

  lemma PathsClosed(k: KafkaSecurity)
    ensures ')' !in ADDRESS_FILE && ')' !in PortFile(k)
    ensures Variable(POD_NAME, '.').Valid()
  {
    assert ')' !in LISTENER_BROKER_DIR && ')' !in "/default-address/address";
    assert ')' !in "/default-address/ports/" && ')' !in k.ClientPortName();
  }

  lemma DomainLiteral(namespace: string, objectName: string, port: int)
    requires Literal(namespace) && Literal(objectName)
    ensures '$' !in Domain(namespace, objectName) + [':'] + Decimal(port)
  {
    assert '$' !in "." && '$' !in ".svc.cluster.local" && '$' !in [':'];
    DecimalCharacters(port);
    assert '$' !in Decimal(port);
  }

  predicate AllValid(pieces: seq<Piece>)
  {
    forall j | 0 <= j < |pieces| :: pieces[j].Valid()
  }

  lemma ExternalValid(name: string, host: Piece, port: Piece)
    requires '$' !in name && host.Valid() && port.Valid()
    ensures AllValid(ExternalPieces(name, host, port))
  {
    assert '$' !in SCHEME && '$' !in [':'];
    assert Plain(name + SCHEME).Valid() && Plain([':']).Valid();
  }

  lemma InternalValid(name: string, pod: Piece, domain: string, port: string)
    requires '$' !in name && pod.Valid() && '$' !in domain + [':'] + port
    ensures AllValid(InternalPieces(name, pod, domain, port))
  {
    assert '$' !in SCHEME;
    assert Plain(name + SCHEME).Valid() && Plain(domain + [':'] + port).Valid();
  }

  lemma AdvertisedValid(namespace: string, k: KafkaSecurity, objectName: string)
    requires Literal(namespace) && Literal(objectName)
    ensures forall i | 0 <= i < |Names(k)| :: AllValid(AdvertisedPieces(namespace, k, objectName)[i])
  {
    LiteralNames(k);
    PathsClosed(k);
    DomainLiteral(namespace, objectName, k.InternalPort());
    InternalValid(INTERNAL, Variable(POD_NAME, '.'), Domain(namespace, objectName), Decimal(k.InternalPort()));
    forall i | 0 <= i < |Names(k)| && i != 1
      ensures AllValid(AdvertisedPieces(namespace, k, objectName)[i])
    {
      ExternalValid(Names(k)[i], File(ADDRESS_FILE), File(PortFile(k)));
    }
  }

  /** For every container: the shell turns the advertised text into the text of the resolved listeners. */
  lemma AdvertisedExpands(namespace: string, k: KafkaSecurity, objectName: string, env: Environment)
    requires Literal(namespace) && Literal(objectName)
    ensures Expand(ListenersText(Advertised(namespace, k, objectName)), env)
              == ListenersText(Resolved(namespace, k, objectName, env))
  {
    var items := AdvertisedPieces(namespace, k, objectName);
    var from, to := Advertised(namespace, k, objectName), Resolved(namespace, k, objectName, env);
    AdvertisedValid(namespace, k, objectName);
    forall i | 0 <= i < |items|
      ensures Show(items[i]) == ListenerText(from[i]) && Results(items[i], env) == ListenerText(to[i])
    {
      if i == 1 {
        InternalText(INTERNAL, Variable(POD_NAME, '.'), Domain(namespace, objectName), Decimal(k.InternalPort()), env);
        FqdnPieces(namespace, objectName);
      } else {
        ExternalText(Names(k)[i], File(ADDRESS_FILE), File(PortFile(k)), env);
        CommandPieces(LISTENER_BROKER_DIR, k.ClientPortName());
      }
    }
    ListExpands(items, Map(ListenerText, from), Map(ListenerText, to), ',', env);
  }

  lemma {:induction false} JoinWithout(parts: seq<string>, sep: char, c: char)
    requires c != sep && forall i | 0 <= i < |parts| :: c !in parts[i]
    ensures c !in Join(parts, sep)
  {
    if |parts| > 1 {
      JoinWithout(parts[1..], sep, c);
    }
  }

  lemma BoundStays(k: KafkaSecurity, env: Environment)
    ensures Expand(ListenersText(Bound(k)), env) == ListenersText(Bound(k))
  {
    LiteralNames(k);
    forall i | 0 <= i < |Bound(k)|
      ensures '$' !in ListenerText(Bound(k)[i])
    {
      DecimalCharacters(Ports(k)[i]);
      assert '$' !in Decimal(Ports(k)[i]) && '$' !in [':'];
    }
    JoinWithout(Map(ListenerText, Bound(k)), ',', '$');
    LiteralTextExpands(ListenersText(Bound(k)), env);
  }

  lemma ProtocolLiteral(k: KafkaSecurity, name: string)
    requires name in Protocols(k)
    ensures '$' !in EntryText(ProtocolEntry(name, Protocols(k)[name]))
  {
    LiteralNames(k);
    ProtocolNames(k, name);
    assert Protocols(k)[name] == SSL || Protocols(k)[name] == PLAINTEXT;
    assert '$' !in ":";
  }

  lemma ProtocolsStay(k: KafkaSecurity, s: string, env: Environment)
    requires Lists(s, Protocols(k))
    ensures Expand(s, env) == s
  {
    var entries: seq<ProtocolEntry> :|
      EntriesOf(entries, Protocols(k), Protocols(k).Keys) && s == Join(Map(EntryText, entries), ',');
    forall i | 0 <= i < |entries|
      ensures '$' !in EntryText(entries[i])
    {
      ProtocolLiteral(k, entries[i].name);
    }
    JoinWithout(Map(EntryText, entries), ',', '$');
    LiteralTextExpands(s, env);
  }

  /** What the container provides can be told apart from the list's own punctuation. */
  predicate Clean(k: KafkaSecurity, env: Environment)
  {
    && ',' !in Lookup(env.files, ADDRESS_FILE)
    && ',' !in Lookup(env.files, PortFile(k)) && ':' !in Lookup(env.files, PortFile(k))
    && ',' !in Lookup(env.variables, POD_NAME)
  }

  lemma DomainComma(pod: string, namespace: string, objectName: string)
    ensures ',' in pod + "." + Domain(namespace, objectName) <==> ',' in pod || ',' in namespace || ',' in objectName
  {
    assert ',' !in "." && ',' !in ".svc.cluster.local";
  }

  /** The resolved listeners are readable exactly when neither the names nor the container disturb the list. */
  lemma ResolvedReadable(namespace: string, k: KafkaSecurity, objectName: string, env: Environment)
    ensures (forall i | 0 <= i < |Names(k)| :: Readable(Resolved(namespace, k, objectName, env)[i]))
            <==> ',' !in namespace && ',' !in objectName && Clean(k, env)
  {
    var listeners := Resolved(namespace, k, objectName, env);
    NamesReadable(k);
    DomainComma(Lookup(env.variables, POD_NAME), namespace, objectName);
    DecimalCharacters(k.InternalPort());
    forall i | 0 <= i < |listeners|
      ensures CutFirst(listeners[i].name, SCHEME).None?
    {
      NoFirstCut(Names(k)[i], SCHEME);
    }
    assert Readable(listeners[0]) <==>
             && ',' !in Lookup(env.files, ADDRESS_FILE)
             && ',' !in Lookup(env.files, PortFile(k)) && ':' !in Lookup(env.files, PortFile(k));
    assert Readable(listeners[1]) <==>
             ',' !in Lookup(env.variables, POD_NAME) && ',' !in namespace && ',' !in objectName;
    assert |listeners| > 2 ==> (Readable(listeners[2]) <==> Readable(listeners[0]));
  }
}
