/** core/src/conn/ssh_config.c: the ssh_* fields of a DSN, validated and copied into owned strings.
    Allocation may fail at any call; the heap says what is still allocated. */
module SshConfig {
  import opened Prelude
  import opened Json
  import opened Heap
  import Text

  // ---------------------------------------------------------------- what a DSN asks for

  datatype Auth = Agent | Password | Key
  datatype Policy = AcceptNew | Strict | Off

  /** The content of a parsed config. */
  datatype Content = Content(
    host: string, port: int, user: string, auth: Auth,
    password: Option<string>, keyPath: Option<string>, keyData: Option<string>, passphrase: Option<string>,
    targetHost: string, targetPort: int, policy: Policy, knownHosts: Option<string>)

  datatype Wanted = Invalid | Direct | Tunnel(content: Content)

  /** A non-empty string member. */
  function Field(root: Json, key: string): Option<string> {
    var s := GetString(root, key);
    if s.Some? && s.value != "" then s else None
  }

  /** `int_field`: a port given as a number or as decimal text, or 0. */
  function IntField(root: Json, key: string): (n: int)
    ensures 0 <= n <= 65535
  {
    match Get(root, key)
    case Some(Number(v)) => if 0 < ValueInt(v) <= 65535 then ValueInt(v) else 0
    case Some(Str(s)) =>
      var (v, end) := Text.Strtol(s, 0);
      if end != 0 && end == |s| && 0 < v <= 65535 then v else 0
    case _ => 0
  }

  /** `ssh_hostkey_policy_from_string`. */
  function PolicyFrom(s: Option<string>): (p: Policy)
    ensures p == Off <==> s == Some("off")
    ensures p == Strict <==> s == Some("strict")
  {
    if s == Some("strict") then Strict else if s == Some("off") then Off else AcceptNew
  }

  function TargetField(root: Json): Option<string> {
    var t := Field(root, "ssh_target_host");
    if t.Some? then t else Field(root, "host")
  }

  function AuthFrom(s: Option<string>): (a: Option<Auth>)
    ensures a == Some(Password) <==> s == Some("password")
    ensures a == Some(Key) <==> s == Some("key")
    ensures a == Some(Agent) <==> s == None || s == Some("agent")
  {
    if s.None? || s.value == "agent" then Some(Agent)
    else if s.value == "password" then Some(Password)
    else if s.value == "key" then Some(Key)
    else None
  }

  /** What `dsn` asks for; None is text that is not JSON. */
  function Asked(dsn: Option<Json>): Wanted {
    if dsn.None? then Invalid
    else
      var root := dsn.value;
      var host := Field(root, "ssh_host");
      var user := Field(root, "ssh_user");
      var auth := AuthFrom(GetString(root, "ssh_auth"));
      var target := TargetField(root);
      if host.None? then Direct
      else if auth.None? || user.None?
           || (auth.value == Password && Field(root, "ssh_password").None?)
           || (auth.value == Key && Field(root, "ssh_key").None? && Field(root, "ssh_private_key").None?) then Invalid
      else Tunnel(Content(
                    host.value, if IntField(root, "ssh_port") > 0 then IntField(root, "ssh_port") else 22,
                    user.value, auth.value,
                    Field(root, "ssh_password"), Field(root, "ssh_key"), Field(root, "ssh_private_key"),
                    Field(root, "ssh_key_passphrase"),
                    if target.Some? then target.value else "127.0.0.1",
                    if IntField(root, "ssh_target_port") != 0 then IntField(root, "ssh_target_port")
                    else IntField(root, "port"),
                    PolicyFrom(GetString(root, "ssh_host_key_policy")), Field(root, "ssh_known_hosts")))
  }

  /** The member is this number, or its decimal text. */
  predicate SaysNumber(root: Json, key: string, n: nat) {
    Get(root, key) == Some(Number(n as real)) || Get(root, key) == Some(Str(Text.Decimal(n)))
  }

  lemma IntFieldReads(root: Json, key: string, n: nat)
    requires SaysNumber(root, key, n)
    ensures IntField(root, key) == if 1 <= n <= 65535 then n else 0
  {
    assert (n as real).Floor == n;
    Text.StrtolOfDecimal(n);
  }

  /** The member is this text, or there is none that is not empty. */
  ghost predicate SaysText(root: Json, key: string, text: Option<string>) {
    if text.Some? then text.value != "" && Get(root, key) == Some(Str(text.value))
    else forall s :: Get(root, key) == Some(Str(s)) ==> s == ""
  }

  predicate Names(root: Json, key: string) {
    var v := Get(root, key);
    v.Some? && v.value.Str? && v.value.text != ""
  }

  /** A tunnel is asked for exactly when the DSN names a host and a user and a known way to authenticate, with what
      that way needs; a host without the rest is refused. */
  lemma TunnelIff(root: Json)
    ensures var auth := Get(root, "ssh_auth");
            Asked(Some(root)).Tunnel? <==>
              && Names(root, "ssh_host") && Names(root, "ssh_user")
              && (auth == None || !auth.value.Str? || auth.value.text == "agent"
                  || (auth.value.text == "password" && Names(root, "ssh_password"))
                  || (auth.value.text == "key" && (Names(root, "ssh_key") || Names(root, "ssh_private_key"))))
    ensures Asked(Some(root)).Invalid? <==> Names(root, "ssh_host") && !Asked(Some(root)).Tunnel?
  {
  }

  /** The content of a tunnel is what the members of the DSN say. */
  lemma ContentAsAsked(root: Json)
    requires Asked(Some(root)).Tunnel?
    ensures var c := Asked(Some(root)).content;
            && SaysText(root, "ssh_host", Some(c.host)) && SaysText(root, "ssh_user", Some(c.user))
            && SaysText(root, "ssh_password", c.password) && SaysText(root, "ssh_key", c.keyPath)
            && SaysText(root, "ssh_private_key", c.keyData) && SaysText(root, "ssh_key_passphrase", c.passphrase)
            && SaysText(root, "ssh_known_hosts", c.knownHosts)
            && (SaysText(root, "ssh_target_host", Some(c.targetHost))
                || (SaysText(root, "ssh_target_host", None) && SaysText(root, "host", Some(c.targetHost)))
                || (SaysText(root, "ssh_target_host", None) && SaysText(root, "host", None)
                    && c.targetHost == "127.0.0.1"))
    ensures var c := Asked(Some(root)).content;
            && (c.auth == Password ==> c.password.Some?) && (c.auth == Key ==> c.keyPath.Some? || c.keyData.Some?)
            && (c.auth == Password <==> Get(root, "ssh_auth") == Some(Str("password")))
            && (c.auth == Key <==> Get(root, "ssh_auth") == Some(Str("key")))
            && (c.policy == Strict <==> Get(root, "ssh_host_key_policy") == Some(Str("strict")))
            && (c.policy == Off <==> Get(root, "ssh_host_key_policy") == Some(Str("off")))
  {
  }

  /** Ports are taken from 1 to 65535, as numbers or as text; that of the SSH server is 22 otherwise, and that of the
      target the database's own. */
  lemma PortsAsAsked(root: Json, n: nat)
    requires Asked(Some(root)).Tunnel?
    ensures var c, usable := Asked(Some(root)).content, 1 <= n <= 65535;
            && (SaysNumber(root, "ssh_port", n) ==> c.port == if usable then n else 22)
            && (Get(root, "ssh_port") == None ==> c.port == 22)
            && (SaysNumber(root, "ssh_target_port", n) && usable ==> c.targetPort == n)
            && (Get(root, "ssh_target_port") == None && SaysNumber(root, "port", n) ==>
                  c.targetPort == if usable then n else 0)
  {
    if SaysNumber(root, "ssh_port", n) {
      IntFieldReads(root, "ssh_port", n);
    }
    if SaysNumber(root, "ssh_target_port", n) {
      IntFieldReads(root, "ssh_target_port", n);
    }
    if SaysNumber(root, "port", n) {
      IntFieldReads(root, "port", n);
    }
  }

  /** A connection is made without a tunnel exactly when the DSN is JSON without a usable ssh_host.  JSON that is
      not an object at all is accepted as such. */
  lemma DirectIffNoHost(dsn: Option<Json>)
    ensures Asked(dsn).Direct? <==> dsn.Some? && Field(dsn.value, "ssh_host").None?
    ensures dsn.Some? && !dsn.value.Object? ==> Asked(dsn) == Direct
  {
  }

  // ---------------------------------------------------------------- the code

  function Read(p: Ptr): Option<string> {
    if p.At? then Some(p.text) else None
  }

  /** `ssh_config`. */
  class Config {
    var present: bool
    var host: Ptr
    var port: int
    var user: Ptr
    var auth: Auth
    var password: Ptr
    var keyPath: Ptr
    var keyData: Ptr
    var passphrase: Ptr
    var targetHost: Ptr
    var targetPort: int
    var policy: Policy
    var knownHosts: Ptr

    /** The zeroed struct. */
    constructor ()
      ensures IsZero()
    {
      present, port, auth, targetPort, policy := false, 0, Agent, 0, AcceptNew;
      host, user, password, keyPath := Unset, Unset, Unset, Unset;
      keyData, passphrase, targetHost, knownHosts := Unset, Unset, Unset, Unset;
    }

    function Ptrs(): seq<Ptr>
      reads this
    {
      [host, user, password, keyPath, keyData, passphrase, targetHost, knownHosts]
    }

    predicate IsZero()
      reads this
    {
      !present && Ptrs() == [Unset, Unset, Unset, Unset, Unset, Unset, Unset, Unset]
    }

    function ContentOf(): Content
      requires host.At? && user.At? && targetHost.At?
      reads this
    {
      Content(host.text, port, user.text, auth, Read(password), Read(keyPath), Read(keyData), Read(passphrase),
              targetHost.text, targetPort, policy, Read(knownHosts))
    }

    /** The condition `ssh_tunnel_open` checks first, and what its authentication then dereferences. */
    predicate Openable()
      reads this
    {
      && host.At? && user.At? && targetHost.At? && 0 < port <= 65535
      && (auth == Password ==> password.At?) && (auth == Key ==> keyData.At? || keyPath.At?)
    }

    /** `memset` to zero. */
    method Zero()
      modifies this
      ensures IsZero()
    {
      present, port, auth, targetPort, policy := false, 0, Agent, 0, AcceptNew;
      host, user, password, keyPath := Unset, Unset, Unset, Unset;
      keyData, passphrase, targetHost, knownHosts := Unset, Unset, Unset, Unset;
    }

    static method FreeFour(heap: Allocator, a: Ptr, b: Ptr, c: Ptr, d: Ptr, ghost ps: seq<Ptr>)
      requires heap.Valid() && |ps| >= 4 && ps[..4] == [a, b, c, d] && Owned(ps, heap.live)
      modifies heap
      ensures heap.Valid() && heap.next == old(heap.next) && heap.failures == old(heap.failures)
      ensures Owned(ps[4..], heap.live) && heap.live - Addrs(ps[4..]) == old(heap.live) - Addrs(ps)
    {
      assert ps[0] == ps[..4][0] && ps[1] == ps[..4][1] && ps[2] == ps[..4][2] && ps[3] == ps[..4][3];
      heap.FreeFirst(a, ps);
      heap.FreeFirst(b, ps[1..]);
      assert ps[1..][1..] == ps[2..];
      heap.FreeFirst(c, ps[2..]);
      assert ps[2..][1..] == ps[3..];
      heap.FreeFirst(d, ps[3..]);
      assert ps[3..][1..] == ps[4..];
    }

    /** `ssh_config_dispose`. */
    method Dispose(heap: Allocator)
      requires heap.Valid() && Owned(Ptrs(), heap.live)
      modifies this, heap
      ensures heap.Valid() && IsZero() && heap.live == old(heap.live) - Addrs(old(Ptrs()))
      ensures heap.failures == old(heap.failures)
    {
      ghost var ps := Ptrs();
      FreeFour(heap, host, user, password, keyPath, ps);
      FreeFour(heap, keyData, passphrase, targetHost, knownHosts, ps[4..]);
      assert ps[4..][4..] == [] && Addrs([]) == {};
      Zero();
    }

    /** `dup_field`; `ps` are the strings copied before it since the heap held `live0`. */
    static method DupField(heap: Allocator, root: Json, key: string, oom0: bool,
                           ghost ps: seq<Ptr>, ghost live0: set<nat>)
      returns (p: Ptr, oom: bool, ghost ps': seq<Ptr>)
      requires heap.Copied(ps, live0)
      modifies heap
      ensures ps' == ps + [p] && heap.Copied(ps', live0)
      ensures heap.failures >= old(heap.failures)
      ensures oom == (oom0 || heap.failures > old(heap.failures))
      ensures heap.failures == old(heap.failures) ==> Read(p) == Field(root, key)
      ensures p.At? ==> heap.failures == old(heap.failures)
    {
      p, oom, ps' := Unset, oom0, ps + [Unset];
      var f := Field(root, key);
      if f.None? {
        AppendOwned(ps, p, heap.live);
        assert heap.live + Addr(p) == heap.live;
        return;
      }
      ghost var live := heap.live;
      p := heap.Copy(f.value);
      oom := oom0 || p.Unset?;
      ps' := ps + [p];
      AppendOwned(ps, p, live);
    }

    static lemma InOrder(a: Ptr, b: Ptr, c: Ptr, d: Ptr, e: Ptr, f: Ptr, g: Ptr, h: Ptr)
      ensures [a] + [b] + [c] + [d] + [e] + [f] + [g] + [h] == [a, b, c, d, e, f, g, h]
    {
    }

    /** The strings after the host, copied in the order of `ssh_config_parse`. */
    static method CopyStrings(heap: Allocator, root: Json, host: Ptr, ghost live0: set<nat>)
      returns (user: Ptr, password: Ptr, keyPath: Ptr, keyData: Ptr, passphrase: Ptr, target: Ptr, known: Ptr,
               oom: bool, ghost ps: seq<Ptr>)
      requires heap.Copied([host], live0)
      modifies heap
      ensures heap.Copied(ps, live0) && ps == [host, user, password, keyPath, keyData, passphrase, target, known]
      ensures heap.failures >= old(heap.failures) && (oom <==> heap.failures > old(heap.failures))
      ensures !oom ==> Read(user) == Field(root, "ssh_user") && Read(password) == Field(root, "ssh_password")
                       && Read(keyPath) == Field(root, "ssh_key") && Read(keyData) == Field(root, "ssh_private_key")
                       && Read(passphrase) == Field(root, "ssh_key_passphrase") && Read(target) == TargetField(root)
                       && Read(known) == Field(root, "ssh_known_hosts")
    {
      ps := [host];
      user, oom, ps := DupField(heap, root, "ssh_user", false, ps, live0);
      password, oom, ps := DupField(heap, root, "ssh_password", oom, ps, live0);
      keyPath, oom, ps := DupField(heap, root, "ssh_key", oom, ps, live0);
      keyData, oom, ps := DupField(heap, root, "ssh_private_key", oom, ps, live0);
      passphrase, oom, ps := DupField(heap, root, "ssh_key_passphrase", oom, ps, live0);
      ghost var before := ps;
      target, oom, ps := DupField(heap, root, "ssh_target_host", oom, ps, live0);
      if target.Unset? && !oom {
        heap.DropUnset(before, live0);
        target, oom, ps := DupField(heap, root, "host", oom, before, live0);
      }
      known, oom, ps := DupField(heap, root, "ssh_known_hosts", oom, ps, live0);
      InOrder(host, user, password, keyPath, keyData, passphrase, target, known);
    }

    /** The copied strings but the target are the fields of the DSN, and so are the scalars. */
    predicate StringsRead(root: Json)
      reads this
    {
      && Read(host) == Field(root, "ssh_host") && Read(user) == Field(root, "ssh_user")
      && Read(password) == Field(root, "ssh_password") && Read(keyPath) == Field(root, "ssh_key")
      && Read(keyData) == Field(root, "ssh_private_key") && Read(passphrase) == Field(root, "ssh_key_passphrase")
      && Read(knownHosts) == Field(root, "ssh_known_hosts")
    }

    predicate ScalarsRead(root: Json)
      reads this
    {
      && port == (if IntField(root, "ssh_port") > 0 then IntField(root, "ssh_port") else 22)
      && targetPort == (if IntField(root, "ssh_target_port") != 0 then IntField(root, "ssh_target_port")
                        else IntField(root, "port"))
      && policy == PolicyFrom(GetString(root, "ssh_host_key_policy"))
    }

    predicate AuthRead(root: Json, authKnown: bool)
      reads this
    {
      var found := AuthFrom(GetString(root, "ssh_auth"));
      authKnown == found.Some? && (found.Some? ==> auth == found.value)
    }

    /** The fields that need no allocation; whether `ssh_auth` names a method. */
    method ReadScalars(root: Json) returns (authKnown: bool)
      modifies this`port, this`targetPort, this`policy, this`auth
      ensures ScalarsRead(root)
      ensures AuthRead(root, authKnown)
    {
      var sshPort := IntField(root, "ssh_port");
      port := if sshPort > 0 then sshPort else 22;
      targetPort := IntField(root, "ssh_target_port");
      if targetPort == 0 {
        targetPort := IntField(root, "port");
      }
      policy := PolicyFrom(GetString(root, "ssh_host_key_policy"));
      var found := AuthFrom(GetString(root, "ssh_auth"));
      auth := if found.Some? then found.value else Agent;
      authKnown := found.Some?;
    }

    /** Every field behind the host: whether a copy failed, and whether `ssh_auth` names a method. */
    method Fill(heap: Allocator, root: Json, ghost live0: set<nat>) returns (oom: bool, authKnown: bool)
      requires heap.Copied([host], live0) && Read(host) == Field(root, "ssh_host")
      modifies this, heap
      ensures heap.Copied(Ptrs(), live0) && present == old(present) && host == old(host)
      ensures heap.failures >= old(heap.failures) && (oom <==> heap.failures > old(heap.failures))
      ensures !oom ==> StringsRead(root) && Read(targetHost) == TargetField(root)
      ensures ScalarsRead(root)
      ensures AuthRead(root, authKnown)
    {
      ghost var ps;
      authKnown := ReadScalars(root);
      user, password, keyPath, keyData, passphrase, targetHost, knownHosts, oom, ps :=
        CopyStrings(heap, root, host, live0);
      assert Ptrs() == ps;
    }

    lemma RefusedAsAsked(root: Json)
      requires host.At? && StringsRead(root)
      requires var found := AuthFrom(GetString(root, "ssh_auth"));
               (found.Some? ==> auth == found.value)
               && (found.None? || user.Unset? || (auth == Password && password.Unset?)
                   || (auth == Key && keyPath.Unset? && keyData.Unset?))
      ensures Asked(Some(root)) == Invalid
    {
    }

    lemma AcceptedAsAsked(root: Json)
      requires host.At? && user.At? && StringsRead(root) && ScalarsRead(root)
      requires AuthFrom(GetString(root, "ssh_auth")) == Some(auth)
      requires (auth == Password ==> password.At?) && (auth == Key ==> keyPath.At? || keyData.At?)
      requires Read(targetHost) == if TargetField(root).Some? then TargetField(root) else Some("127.0.0.1")
      ensures Openable() && Asked(Some(root)) == Tunnel(ContentOf())
    {
    }

    /** The target when the DSN names none in either way: the loopback address, seen from the server. */
    method DefaultTarget(heap: Allocator, ghost live0: set<nat>) returns (st: Status)
      requires heap.Copied(Ptrs(), live0) && targetHost == Unset
      modifies this`targetHost, heap
      ensures heap.Copied(Ptrs(), live0) && heap.failures >= old(heap.failures)
      ensures st == if heap.failures > old(heap.failures) then ErrNoMem else Success
      ensures st == Success ==> Read(targetHost) == Some("127.0.0.1")
    {
      ghost var ps, live := Ptrs(), heap.live;
      targetHost := heap.Copy("127.0.0.1");
      ReplaceOwned(ps, 6, targetHost, live);
      assert Ptrs() == ps[6 := targetHost];
      return if targetHost.Unset? then ErrNoMem else Success;
    }

    /** The checks after the copies, in their order. */
    method Check(oom: bool, authKnown: bool) returns (st: Status)
      ensures st == ErrNoMem <==> oom
      ensures st == Success <==> !oom && authKnown && user.At? && (auth == Password ==> password.At?)
                                 && (auth == Key ==> keyPath.At? || keyData.At?)
      ensures st == Success || st == ErrNoMem || st == ErrParam
    {
      if oom {
        return ErrNoMem;
      }
      if !authKnown {
        return ErrParam;
      }
      if user.Unset? {
        return ErrParam;
      }
      if auth == Password && password.Unset? {
        return ErrParam;
      }
      if auth == Key && keyPath.Unset? && keyData.Unset? {
        return ErrParam;
      }
      return Success;
    }

    /** The rest of it, once the DSN has an ssh_host. */
    method ParseTunnel(heap: Allocator, root: Json, ghost live0: set<nat>) returns (st: Status)
      requires heap.Copied([host], live0) && present && Read(host) == Field(root, "ssh_host") && host.At?
      modifies this, heap
      ensures heap.Valid() && heap.failures >= old(heap.failures)
      ensures st == ErrNoMem <==> heap.failures > old(heap.failures)
      ensures st == Success ==> heap.Copied(Ptrs(), live0)
      ensures st == Success ==> present && Openable() && Asked(Some(root)) == Tunnel(ContentOf())
      ensures st != Success ==> heap.live == live0 && IsZero()
      ensures st != Success && st != ErrNoMem ==> st == ErrParam && Asked(Some(root)).Invalid?
    {
      var oom, authKnown := Fill(heap, root, live0);
      st := Check(oom, authKnown);
      if st == ErrParam {
        RefusedAsAsked(root);
      }
      if st == Success && targetHost.Unset? {
        st := DefaultTarget(heap, live0);
      }
      if st == Success {
        AcceptedAsAsked(root);
      } else {
        Dispose(heap);
      }
    }

    /** `ssh_config_parse`. */
    method Parse(heap: Allocator, dsn: Option<Json>) returns (st: Status)
      requires heap.Valid()
      modifies this, heap
      ensures heap.Valid() && heap.failures >= old(heap.failures)
      ensures st == ErrNoMem <==> heap.failures > old(heap.failures)
      ensures st == Success ==> heap.Copied(Ptrs(), old(heap.live))
      ensures st == Success ==>
                if present then Openable() && Asked(dsn) == Tunnel(ContentOf())
                else Asked(dsn).Direct? && IsZero()
      ensures st != Success ==> heap.live == old(heap.live) && IsZero()
      ensures st != Success && st != ErrNoMem ==> st == ErrParam && Asked(dsn).Invalid?
    {
      ghost var live0 := heap.live;
      Zero();
      UnsetOwns(Ptrs(), live0);
      if dsn.None? {
        return ErrParam;
      }
      var hostCopy, oom;
      ghost var ps;
      hostCopy, oom, ps := DupField(heap, dsn.value, "ssh_host", false, [], live0);
      assert ps == [hostCopy];
      if hostCopy.Unset? {
        UnsetOwns(ps, live0);
        return if oom then ErrNoMem else Success;
      }
      present, host := true, hostCopy;
      st := ParseTunnel(heap, dsn.value, live0);
    }
  }
}
