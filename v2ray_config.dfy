/** The part of the proxy's config.json that the agent reads and rewrites:
    the `inbounds` list, each inbound's `tag` and its `settings.clients`. */
module V2rayConfig {
  import opened Wrappers
  import opened Seqs

  type UserId = string

  /** One entry of an inbound's `settings.clients`. */
  datatype Client = Client(id: UserId, email: string, level: int, alterId: int)

  datatype Inbound = Inbound(tag: string, clients: seq<Client>)

  /** The parsed configuration document. Keys the agent never touches are
      not modelled; the agent copies them through unchanged. */
  datatype Config = Config(inbounds: seq<Inbound>)

  function Tags(inbounds: seq<Inbound>): seq<string>
  {
    seq(|inbounds|, j requires 0 <= j < |inbounds| => inbounds[j].tag)
  }

  function Ids(clients: seq<Client>): seq<UserId>
  {
    seq(|clients|, k requires 0 <= k < |clients| => clients[k].id)
  }

  /** Index of the first inbound carrying `tag`: the one the agent's
      `for inbound ... if inbound['tag'] == tag: ... break` loops stop at. */
  function TagIndex(cfg: Config, tag: string): Option<nat>
  {
    IndexOf(Tags(cfg.inbounds), tag)
  }

  /** Replacing an inbound by one with the same tag keeps the tags. */
  lemma TagsUpdate(inbounds: seq<Inbound>, i: nat, x: Inbound)
    requires i < |inbounds| && x.tag == inbounds[i].tag
    ensures Tags(inbounds[i := x]) == Tags(inbounds)
  {
    var t := Tags(inbounds[i := x]);
    forall n | 0 <= n < |inbounds|
      ensures t[n] == Tags(inbounds)[n]
    {
    }
  }

  lemma IdsAppend(clients: seq<Client>, c: Client)
    ensures Ids(clients + [c]) == Ids(clients) + [c.id]
  {
    var l := clients + [c];
    forall n | 0 <= n < |l|
      ensures Ids(l)[n] == (Ids(clients) + [c.id])[n]
    {
    }
  }

  /** Popping a client pops its id. */
  lemma IdsRemoveAt(clients: seq<Client>, k: nat)
    requires k < |clients|
    ensures Ids(RemoveAt(clients, k)) == RemoveAt(Ids(clients), k)
  {
    var l := RemoveAt(clients, k);
    var r := RemoveAt(Ids(clients), k);
    assert |l| == |r| == |clients| - 1;
    forall n | 0 <= n < |l|
      ensures Ids(l)[n] == r[n]
    {
      if n < k {
        assert l[n] == clients[n] && r[n] == Ids(clients)[n];
      } else {
        assert l[n] == clients[n + 1] && r[n] == Ids(clients)[n + 1];
      }
    }
  }

  /** The ids `get_v2ray_users` reports for a read of the config file
      (`None` when reading or parsing it fails). */
  function LiveIds(read: Option<Config>, tag: string): (ids: seq<UserId>)
    ensures read.None? ==> ids == []
    ensures read.Some? && tag !in Tags(read.value.inbounds) ==> ids == []
    ensures read.Some? ==> forall i :: 0 <= i < |read.value.inbounds| && Tags(read.value.inbounds)[i] == tag
                                       && tag !in Tags(read.value.inbounds)[..i]
                                       ==> ids == Ids(read.value.inbounds[i].clients)
  {
    match read
    case None => []
    case Some(cfg) =>
      match TagIndex(cfg, tag)
      case None => []
      case Some(i) => Ids(cfg.inbounds[i].clients)
  }

  /** Lines 86-96: the client goes at the end of the first inbound carrying
      `tag`; nothing else changes, and the change is reported only when such
      an inbound exists. */
  function AppendClient(cfg: Config, tag: string, c: Client): (r: (Config, bool))
    ensures r.1 <==> tag in Tags(cfg.inbounds)
    ensures Tags(r.0.inbounds) == Tags(cfg.inbounds)
    ensures !r.1 ==> r.0 == cfg
    ensures r.1 ==> var i := TagIndex(cfg, tag).value;
                    && r.0.inbounds[i].clients == cfg.inbounds[i].clients + [c]
                    && forall j :: 0 <= j < |cfg.inbounds| && j != i ==> r.0.inbounds[j] == cfg.inbounds[j]
    ensures LiveIds(Some(r.0), tag) == LiveIds(Some(cfg), tag) + (if r.1 then [c.id] else [])
  {
    match TagIndex(cfg, tag)
    case None => (cfg, false)
    case Some(i) =>
      var inbound := cfg.inbounds[i];
      var cfg' := Config(cfg.inbounds[i := inbound.(clients := inbound.clients + [c])]);
      TagsUpdate(cfg.inbounds, i, inbound.(clients := inbound.clients + [c]));
      IdsAppend(inbound.clients, c);
      (cfg', true)
  }

  /** Lines 107-115: the first client with `id` in the first inbound carrying
      `tag` is popped and the others keep their order; the change is reported
      only when a client was popped. On ids this is `list.remove`. */
  function RemoveClient(cfg: Config, tag: string, id: UserId): (r: (Config, bool))
    ensures r.1 <==> id in LiveIds(Some(cfg), tag)
    ensures Tags(r.0.inbounds) == Tags(cfg.inbounds)
    ensures !r.1 ==> r.0 == cfg
    ensures r.1 ==> var i := TagIndex(cfg, tag).value;
                    var clients := cfg.inbounds[i].clients;
                    && r.0.inbounds[i].clients == RemoveAt(clients, IndexOf(Ids(clients), id).value)
                    && forall j :: 0 <= j < |cfg.inbounds| && j != i ==> r.0.inbounds[j] == cfg.inbounds[j]
    ensures LiveIds(Some(r.0), tag) == RemoveFirst(LiveIds(Some(cfg), tag), id)
  {
    match TagIndex(cfg, tag)
    case None => (cfg, false)
    case Some(i) =>
      var inbound := cfg.inbounds[i];
      match IndexOf(Ids(inbound.clients), id)
      case None => (cfg, false)
      case Some(k) =>
        var cfg' := Config(cfg.inbounds[i := inbound.(clients := RemoveAt(inbound.clients, k))]);
        TagsUpdate(cfg.inbounds, i, inbound.(clients := RemoveAt(inbound.clients, k)));
        IdsRemoveAt(inbound.clients, k);
        RemoveFirstAt(Ids(inbound.clients), id);
        (cfg', true)
  }

  /** `get_v2ray_users` (lines 40-53): collect the ids of the clients of the
      first inbound whose tag matches; a failed read yields no ids. */
  method GetV2rayUsers(read: Option<Config>, tag: string) returns (users: seq<UserId>)
    ensures users == LiveIds(read, tag)
  {
    users := [];
    if read.None? {
      return;
    }
    var inbounds := read.value.inbounds;
    var i := 0;
    while i < |inbounds|
      invariant 0 <= i <= |inbounds|
      invariant tag !in Tags(inbounds)[..i]
      invariant users == []
    {
      if inbounds[i].tag == tag {
        var clients := inbounds[i].clients;
        var k := 0;
        while k < |clients|
          invariant 0 <= k <= |clients|
          invariant users == Ids(clients[..k])
        {
          assert Ids(clients[..k + 1]) == Ids(clients[..k]) + [clients[k].id];
          users := users + [clients[k].id];
          k := k + 1;
        }
        assert clients[..k] == clients;
        return;
      }
      assert Tags(inbounds)[..i + 1] == Tags(inbounds)[..i] + [inbounds[i].tag];
      i := i + 1;
    }
    assert Tags(inbounds)[..i] == Tags(inbounds);
  }

  /** The append of lines 86-96 as the source writes it: walk the inbounds,
      append to the first one whose tag matches and stop. */
  method AppendToInbound(cfg: Config, tag: string, c: Client) returns (cfg': Config, appended: bool)
    ensures (cfg', appended) == AppendClient(cfg, tag, c)
  {
    cfg', appended := cfg, false;
    var i := 0;
    while i < |cfg.inbounds|
      invariant 0 <= i <= |cfg.inbounds|
      invariant tag !in Tags(cfg.inbounds)[..i]
      invariant cfg' == cfg && !appended
    {
      var inbound := cfg.inbounds[i];
      if inbound.tag == tag {
        IndexOfUnique(Tags(cfg.inbounds), tag, i);
        cfg' := Config(cfg.inbounds[i := inbound.(clients := inbound.clients + [c])]);
        appended := true;
        return;
      }
      assert Tags(cfg.inbounds)[..i + 1] == Tags(cfg.inbounds)[..i] + [inbound.tag];
      i := i + 1;
    }
    assert Tags(cfg.inbounds)[..i] == Tags(cfg.inbounds);
  }

  /** The removal of lines 107-115 as the source writes it: find the first
      inbound whose tag matches, pop its first client with `id`, stop. */
  method PopFromInbound(cfg: Config, tag: string, id: UserId) returns (cfg': Config, popped: bool)
    ensures (cfg', popped) == RemoveClient(cfg, tag, id)
  {
    cfg', popped := cfg, false;
    var i := 0;
    while i < |cfg.inbounds|
      invariant 0 <= i <= |cfg.inbounds|
      invariant tag !in Tags(cfg.inbounds)[..i]
      invariant cfg' == cfg && !popped
    {
      var inbound := cfg.inbounds[i];
      if inbound.tag == tag {
        IndexOfUnique(Tags(cfg.inbounds), tag, i);
        var clients := inbound.clients;
        var k := 0;
        while k < |clients|
          invariant 0 <= k <= |clients|
          invariant id !in Ids(clients)[..k]
          invariant cfg' == cfg && !popped
        {
          if clients[k].id == id {
            IndexOfUnique(Ids(clients), id, k);
            cfg' := Config(cfg.inbounds[i := inbound.(clients := RemoveAt(clients, k))]);
            popped := true;
            return;
          }
          assert Ids(clients)[..k + 1] == Ids(clients)[..k] + [clients[k].id];
          k := k + 1;
        }
        assert Ids(clients)[..k] == Ids(clients);
        return;
      }
      assert Tags(cfg.inbounds)[..i + 1] == Tags(cfg.inbounds)[..i] + [inbound.tag];
      i := i + 1;
    }
    assert Tags(cfg.inbounds)[..i] == Tags(cfg.inbounds);
  }
}
