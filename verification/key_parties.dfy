/**
  The two parties of the key exchange as the program runs them: objects whose fields change,
  with loops over the client list and over byte buffers.  Each method is proved against the
  functions of module KeyExchange, where what the exchange is for is proved.
 */
module KeyParties {
  import opened Basics
  import opened Bytes
  import opened KeyExchange

  /** keyExchangeCTRBaseGenerate: masks for number counters, two blocks a round. */
  method GenerateMasks(k: Setup, nonce: seq<Byte>, counter: nat, number: nat) returns (masks: seq<Byte>)
    requires Sound(k.crypto) && counter < WORD32 && number % 2 == 0
    ensures masks == Stream(k, nonce, counter, number)
  {
    masks := [];
    var current := counter;
    FirstRound(k, nonce, counter);
    hide *;
    for i := 0 to number / 2
      invariant current == Wrap32(counter + 2 * i)
      invariant masks == Stream(k, nonce, counter, 2 * i)
    {
      NextRound(k, nonce, counter, i);
      var first := CounterBlock(nonce, current);
      current := Wrap32(current + 1);
      var second := CounterBlock(nonce, current);
      current := Wrap32(current + 1);
      masks := masks + (k.crypto.block(k.session, first) + k.crypto.block(k.session, second));
    }
  }

  lemma StreamTwo(k: Setup, nonce: seq<Byte>, counter: nat, n: nat)
    ensures Stream(k, nonce, counter, n + 2) ==
            Stream(k, nonce, counter, n) + (k.crypto.block(k.session, CounterBlock(nonce, counter + n)) +
                                            k.crypto.block(k.session, CounterBlock(nonce, counter + n + 1)))
  {
    hide CounterBlock;
    assert Stream(k, nonce, counter, n + 2) ==
           Stream(k, nonce, counter, n + 1) + k.crypto.block(k.session, CounterBlock(nonce, counter + n + 2 - 1));
    assert counter + n + 2 - 1 == counter + n + 1;
  }

  lemma FirstRound(k: Setup, nonce: seq<Byte>, counter: nat)
    requires counter < WORD32
    ensures Stream(k, nonce, counter, 2 * 0) == [] && counter == Wrap32(counter + 2 * 0)
    ensures TABLE_SIZE == 32 * (TABLE_SIZE / 32) && TABLE_SIZE / 16 == 2 * (TABLE_SIZE / 32)
  {
  }

  /** What round i adds to the stream: the pair of blocks at its two counters. */
  lemma NextRound(k: Setup, nonce: seq<Byte>, counter: nat, i: nat)
    requires Sound(k.crypto)
    ensures var c := Wrap32(counter + 2 * i);
      var pair := k.crypto.block(k.session, CounterBlock(nonce, c))
          + k.crypto.block(k.session, CounterBlock(nonce, Wrap32(c + 1)));
      && |pair| == 32 && Stream(k, nonce, counter, 2 * (i + 1)) == Stream(k, nonce, counter, 2 * i) + pair
      && Wrap32(Wrap32(c + 1) + 1) == Wrap32(counter + 2 * (i + 1))
  {
    hide Stream, Wrap32, CounterBlock;
    StreamTwo(k, nonce, counter, 2 * i);
    CountersOfRound(nonce, counter, 2 * i);
    assert 2 * (i + 1) == 2 * i + 2;
  }

  /** The two counters a round uses, and the one it leaves. */
  lemma CountersOfRound(nonce: seq<Byte>, counter: nat, n: nat)
    ensures var c := Wrap32(counter + n);
      && CounterBlock(nonce, c) == CounterBlock(nonce, counter + n)
      && CounterBlock(nonce, Wrap32(c + 1)) == CounterBlock(nonce, counter + n + 1)
      && Wrap32(Wrap32(c + 1) + 1) == Wrap32(counter + (n + 2))
  {
    var c := Wrap32(counter + n);
    WrapAdd(counter + n, 0);
    WrapAdd(counter + n, 1);
    WrapAdd(counter + n, 2);
    WrapAdd(c + 1, 0);
    WrapAdd(c + 1, 1);
    hide Wrap32;
    assert counter + (n + 2) == (counter + n) + 2 && c + 0 == c && c + 1 + 1 == c + 2;
  }

  /** keyExchangeXOR, into a fresh buffer. */
  method XorBuffers(input: seq<Byte>, base: seq<Byte>) returns (result: array<Byte>)
    requires |input| <= |base|
    ensures fresh(result) && result[..] == Xor(input, base) && IsXor(input, base, result[..])
  {
    result := new Byte[|input|](_ => 0);
    for i := 0 to |input|
      invariant forall j | 0 <= j < i :: result[j] == XorByte(input[j], base[j])
    {
      result[i] := XorByte(input[i], base[i]);
    }
    XorExactly(input, base, result[..]);
  }

  lemma {:induction false} KeysOfAppend(k: Setup, hashes: seq<Byte>, n: nat)
    requires HASH_SIZE * (n + 1) <= |hashes|
    ensures KeysOf(k, hashes[..HASH_SIZE * (n + 1)]) ==
            KeysOf(k, hashes[..HASH_SIZE * n]) + k.crypto.sha256(hashes[HASH_SIZE * n..HASH_SIZE * (n + 1)] + k.secret)
    decreases n
  {
    var longer := hashes[..HASH_SIZE * (n + 1)];
    if n == 0 {
      assert longer[..HASH_SIZE] == hashes[HASH_SIZE * n..HASH_SIZE * (n + 1)];
      assert KeysOf(k, longer[HASH_SIZE..]) == [];
    } else {
      var rest := hashes[HASH_SIZE..];
      KeysOfAppend(k, rest, n - 1);
      assert longer[HASH_SIZE..] == rest[..HASH_SIZE * n];
      assert hashes[..HASH_SIZE * n][HASH_SIZE..] == rest[..HASH_SIZE * (n - 1)];
      assert longer[..HASH_SIZE] == hashes[..HASH_SIZE * n][..HASH_SIZE];
      assert rest[HASH_SIZE * (n - 1)..HASH_SIZE * n] == hashes[HASH_SIZE * n..HASH_SIZE * (n + 1)];
    }
  }

  /** The loop of ecall_keygen_ctr that derives one key per hash. */
  method DeriveKeys(k: Setup, hashes: seq<Byte>) returns (keys: seq<Byte>)
    requires Sound(k.crypto) && |hashes| % HASH_SIZE == 0
    ensures keys == KeysOf(k, hashes)
  {
    keys := [];
    var count := |hashes| / HASH_SIZE;
    for index := 0 to count
      invariant keys == KeysOf(k, hashes[..HASH_SIZE * index])
    {
      KeysOfAppend(k, hashes, index);
      var hash := k.crypto.sha256(hashes[HASH_SIZE * index..HASH_SIZE * (index + 1)] + k.secret);
      keys := keys + hash;
    }
    assert hashes[..HASH_SIZE * count] == hashes;
  }

  lemma HasMember(ids: set<ClientId>)
    requires ids != {}
    ensures exists i :: i in ids
  {
    assert (forall i :: i !in ids) ==> |ids| == 0;
  }

  /** The key enclave: its client list and its table of masks. */
  class KeyEnclave {
    const k: Setup
    const mask: array<Byte>
    var clients: map<ClientId, ClientInfo>

    ghost predicate Valid()
      reads this
    {
      Sound(k.crypto) && mask.Length == TABLE_SIZE
    }

    lemma ValidParts()
      requires Valid()
      ensures Sound(k.crypto) && mask.Length == TABLE_SIZE
    {
    }

    function State(): Enclave
      reads this, mask
    {
      Enclave(clients, mask[..])
    }

    /** ecall_setCTRMode: an empty client list and a zeroed table. */
    constructor (setup: Setup)
      requires Sound(setup.crypto)
      ensures Valid() && k == setup && clients == map[] && fresh(mask)
      ensures forall i | 0 <= i < TABLE_SIZE :: mask[i] == 0
    {
      k := setup;
      clients := map[];
      mask := new Byte[TABLE_SIZE](_ => 0);
    }

    /** ecall_clientStatusModify. */
    method ClientStatusModify(id: ClientId, cipher: seq<Byte>, mac: seq<Byte>) returns (status: Status)
      requires Valid() && |cipher| == BLOCK
      modifies this`clients
      ensures Valid()
      ensures (State(), status) == Login(k, old(State()), id, cipher, mac)
    {
      FoldCounts();
      var hmac := k.crypto.hmac(k.session, cipher);
      if hmac != mac {
        return InvalidSignature;
      }
      var plain := k.crypto.decrypt(k.session, cipher);
      var counter, nonce := FromLe32(plain[..4]), plain[4..];
      if id !in clients {
        var taken := FindNonce(nonce);
        if taken {
          return InvalidParameter;
        }
        clients := clients[id := ClientInfo(0, 0, 0, -1, nonce)];
        status := if counter == 0 then Success else Unexpected;
      } else if clients[id].base == counter {
        status := Success;
      } else {
        clients := clients[id := clients[id].(base := 0, current := 0, offline := -1, nonce := nonce)];
        status := Unexpected;
      }
    }

    /** The loop that folds every client's current count into its base count. */
    method FoldCounts()
      modifies this`clients
      ensures clients == FoldAll(old(clients))
    {
      var left := clients.Keys;
      while left != {}
        invariant left <= old(clients).Keys && clients.Keys == old(clients).Keys
        invariant forall i | i in clients :: clients[i] == if i in left
              then old(clients)[i] else Folded(old(clients)[i])
        decreases |left|
      {
        HasMember(left);
        var i :| i in left;
        clients := clients[i := clients[i].(base := Wrap32(clients[i].base + clients[i].current), current := 0)];
        left := left - {i};
      }
      assert forall i | i in clients :: clients[i] == FoldAll(old(clients))[i];
      assert clients == FoldAll(old(clients));
    }

    /** The loop that looks for a client with the given nonce. */
    method FindNonce(nonce: seq<Byte>) returns (taken: bool)
      ensures taken == NonceTaken(clients, nonce)
    {
      var left := clients.Keys;
      while left != {}
        invariant left <= clients.Keys
        invariant forall i | i in clients && i !in left :: clients[i].nonce != nonce
        decreases |left|
      {
        HasMember(left);
        var i :| i in left;
        if clients[i].nonce == nonce {
          return true;
        }
        left := left - {i};
      }
      return false;
    }

    /** ecall_setNextEncryptionMask: masks for at most one client, the first that the iteration meets. */
    method SetNextEncryptionMask() returns (first: Option<ClientId>)
      requires Valid()
      modifies this`clients, mask
      ensures Valid()
      ensures first.None? ==> clients == old(clients) == map[]
      ensures first.Some? ==> first.value in old(clients) && State() == Generate(k, old(State()), first.value)
    {
      if clients == map[] {
        return None;
      }
      HasMember(clients.Keys);
      var i :| i in clients.Keys;
      var info := clients[i];
      clients := clients[i := info.(offline := 1, maskOffset := 0)];
      FillMask(info.nonce, Wrap32(info.base + info.current));
      first := Some(i);
    }

    /** The loop that fills the table, 32 bytes a round. */
    method FillMask(nonce: seq<Byte>, counter: nat)
      requires Valid() && counter < WORD32
      modifies mask
      ensures mask[..] == Stream(k, nonce, counter, TABLE_SIZE / 16)
    {
      var current := counter;
      ValidParts();
      FirstRound(k, nonce, counter);
      var rounds := TABLE_SIZE / 32;
      hide *;
      for i := 0 to rounds
        invariant current == Wrap32(counter + 2 * i)
        invariant mask[..32 * i] == Stream(k, nonce, counter, 2 * i)
      {
        NextRound(k, nonce, counter, i);
        var first := CounterBlock(nonce, current);
        current := Wrap32(current + 1);
        var second := CounterBlock(nonce, current);
        current := Wrap32(current + 1);
        CopyPair(i, k.crypto.block(k.session, first) + k.crypto.block(k.session, second));
      }
      assert mask[..32 * rounds] == mask[..];
    }

    /** memcpy of one pair of blocks to its place in the table. */
    method CopyPair(i: nat, pair: seq<Byte>)
      requires |pair| == 32 && 32 * i + 32 <= mask.Length
      modifies mask
      ensures mask[..32 * (i + 1)] == old(mask[..32 * i]) + pair
    {
      for j := 0 to 32
        invariant mask[..32 * i] == old(mask[..32 * i])
        invariant forall b | 0 <= b < j :: mask[32 * i + b] == pair[b]
      {
        mask[32 * i + j] := pair[j];
      }
    }

    /** Masking with bytes of the table, wherever 32-bit offsets lead. */
    method XorTable(input: seq<Byte>, info: ClientInfo, skip: nat, stray: nat -> Byte) returns (result: seq<Byte>)
      requires Valid()
      ensures result == Xor(input, FromTable(info, mask[..], stray, skip, |input|))
    {
      hide XorByte, Wrap32, Sound;
      ghost var table := FromTable(info, mask[..], stray, skip, |input|);
      result := [];
      for i := 0 to |input|
        invariant |result| == i
        invariant forall j | 0 <= j < i :: result[j] == XorByte(input[j], table[j])
      {
        var at := Wrap32(info.maskOffset + info.current * 16 + skip + i);
        var b := if at < mask.Length then mask[at] else stray(at);
        assert b == table[i] by {
          assert b == TableByte(mask[..], stray, at);
        }
        result := result + [XorByte(input[i], b)];
      }
    }

    /** What the enclave takes off the hashes: the table's masks, or masks it generates and returns. */
    method Unmask(input: seq<Byte>, info: ClientInfo, stray: nat -> Byte) returns (hashes: seq<Byte>, masks: seq<Byte>)
      requires Valid() && |input| % HASH_SIZE == 0
      ensures hashes == Xor(input, FirstMask(k, mask[..], info, stray, |input|))
      ensures masks == Generated(k, info, stray, |input|)
    {
      hide *;
      ValidParts();
      MaskChoice(k, mask[..], info, stray, input);
      if UsesTableFirst(info, |input|) {
        masks := Unwritten(stray, 2 * |input|);
        hashes := XorTable(input, info, 0, stray);
      } else {
        masks := GenerateMasks(k, info.nonce, Wrap32(info.base + info.current), |input| / 32 * 4);
        var buffer := XorBuffers(input, masks);
        hashes := buffer[..];
      }
    }

    /** What the enclave puts on the keys. */
    method Mask(seeds: seq<Byte>, masks: seq<Byte>, info: ClientInfo, stray: nat -> Byte) returns (keys: seq<Byte>)
      requires Valid() && |seeds| % HASH_SIZE == 0 && masks == Generated(k, info, stray, |seeds|)
      ensures keys == Xor(seeds, SecondMask(k, mask[..], info, stray, |seeds|))
    {
      var len := |seeds|;
      hide Stream, Xor, Wrap32, Generated, FromTable, Sound, UsesTableSecond;
      if UsesTableSecond(info, len) {
        keys := XorTable(seeds, info, len, stray);
      } else {
        var buffer := XorBuffers(seeds, masks[len..]);
        keys := buffer[..];
      }
    }

    /** ecall_keygen_ctr. */
    method KeygenCtr(id: ClientId, src: seq<Byte>, stray: nat -> Byte) returns (reply: Option<seq<Byte>>)
      requires Valid() && id in clients && HASH_SIZE <= |src| && |src| % HASH_SIZE == 0
      modifies this`clients
      ensures Valid()
      ensures (State(), reply) == Keygen(k, old(State()), id, src, stray)
    {
      hide Stream, Xor, Wrap32, FirstMask, SecondMask, KeysOf;
      var len := |src| - 32;
      var hmac := k.crypto.hmac(k.session, src[..len]);
      if hmac != src[len..] {
        return None;
      }
      var info := clients[id];
      var hashes, masks := Unmask(src[..len], info, stray);
      var seeds := DeriveKeys(k, hashes);
      var keys := Mask(seeds, masks, info, stray);
      clients := clients[id := info.(current := Wrap32(info.current + len * 2 / 16))];
      reply := Some(keys + k.crypto.hmac(k.session, keys));
    }
  }

  /** What the first use of the masks amounts to, with the table and without. */
  lemma MaskChoice(k: Setup, table: seq<Byte>, info: ClientInfo, stray: nat -> Byte, input: seq<Byte>)
    requires Sound(k.crypto) && |input| % HASH_SIZE == 0
    ensures var len := |input|;
      if UsesTableFirst(info, len) then
        && FirstMask(k, table, info, stray, len) == FromTable(info, table, stray, 0, len)
        && Generated(k, info, stray, len) == Unwritten(stray, 2 * len)
      else
        && Generated(k, info, stray, len) == Stream(k, info.nonce, Wrap32(info.base + info.current), len / 32 * 4)
        && Xor(input, Generated(k, info, stray, len)) == Xor(input, FirstMask(k, table, info, stray, len))
  {
    var len := |input|;
    WrapAdd(info.base + info.current, 0);
    StreamWraps(k, info.nonce, Wrap32(info.base + info.current), info.base + info.current, len / 32 * 4);
    XorPrefix(input, Generated(k, info, stray, len));
    hide Stream, Xor, Wrap32, UsesTableFirst;
  }

  /** A refused login was refused for its nonce, and leaves which nonces are taken as it was. */
  lemma AllRefused(k: Setup, e: Enclave, c: Client)
    requires Sound(k.crypto) && |c.nonce| == NONCE_SIZE && c.counter < WORD32
    requires |k.crypto.decrypt(k.session, LoginCipher(k, c))| == BLOCK
    requires Login(k, e, c.id, LoginCipher(k, c), LoginMac(k, c)).1 == InvalidParameter
    ensures var clients := Login(k, e, c.id, LoginCipher(k, c), LoginMac(k, c)).0.clients;
      && c.id !in e.clients && clients.Keys == e.clients.Keys && NonceTaken(e.clients, c.nonce)
      && forall n :: NonceTaken(clients, n) <==> NonceTaken(e.clients, n)
  {
    hide Sound, LoginCipher, Login, LoginMac, NonceTaken;
    LoginRefused(k, e, c, c.nonce);
    var clients := Login(k, e, c.id, LoginCipher(k, c), LoginMac(k, c)).0.clients;
    forall n
      ensures NonceTaken(clients, n) <==> NonceTaken(e.clients, n)
    {
      LoginRefused(k, e, c, n);
    }
  }

  /** The key client: its nonce and its counter, which it keeps in a file between runs. */
  class KeyClient {
    const k: Setup
    const id: ClientId
    var nonce: seq<Byte>
    var counter: nat

    /** A client with the nonce and counter of its stored file, or without one the counter 0. */
    constructor (setup: Setup, clientId: ClientId, stored: Option<(seq<Byte>, nat)>)
      requires stored.Some? ==> |stored.value.0| == NONCE_SIZE && stored.value.1 < WORD32
      ensures k == setup && id == clientId && counter < WORD32
      ensures if stored.Some? then nonce == stored.value.0 && counter == stored.value.1 else nonce == [] && counter == 0
    {
      k := setup;
      id := clientId;
      nonce := if stored.Some? then stored.value.0 else [];
      counter := if stored.Some? then stored.value.1 else 0;
    }

    function State(): Client
      reads this
    {
      Client(id, nonce, counter)
    }

    /** One login message and its answer. */
    method SendLogin(server: KeyEnclave) returns (status: Status)
      requires Sound(k.crypto) && server.Valid() && server.k == k && |nonce| == NONCE_SIZE && counter < WORD32
      modifies this`counter, server`clients
      ensures (server.State(), status) ==
              Login(k, old(server.State()), id, LoginCipher(k, old(State())), LoginMac(k, old(State())))
      ensures State() == AfterLogin(old(State()), status)
    {
      LoginMessage(k, State());
      var plain := Le32(counter) + nonce;
      assert Wrap32(counter) == counter;
      var cipher := k.crypto.encrypt(k.session, plain);
      var mac := k.crypto.hmac(k.session, cipher);
      status := server.ClientStatusModify(id, cipher, mac);
      if status == Unexpected {
        counter := 0;
      }
    }

    /** initClientCTRInfo: log in with the stored nonce, or with random ones until one is not taken.
        random lists the nonces the generator would give; false means all of them were taken. */
    method InitClientCTRInfo(server: KeyEnclave, random: seq<seq<Byte>>) returns (done: bool)
      requires Sound(k.crypto) && server.Valid() && server.k == k && counter < WORD32
      requires nonce == [] || |nonce| == NONCE_SIZE
      requires forall i | 0 <= i < |random| :: |random[i]| == NONCE_SIZE
      requires id in server.clients && Folded(server.clients[id]).base == counter ==>
                 server.clients[id].nonce == nonce && nonce != []
      modifies this, server`clients
      ensures done ==> Lockstep(server.State(), State()) && server.clients[id].current == 0
      ensures !done ==> (random == [] && old(nonce) == []) || id !in old(server.clients)
      ensures !done ==> forall n | n in random || n == old(nonce) != [] :: NonceTaken(old(server.clients), n)
    {
      var next := 0;
      if nonce == [] {
        if random == [] {
          return false;
        }
        nonce := random[0];
        next := 1;
      }
      ghost var refused: seq<seq<Byte>> := [];
      ghost var toTry := (if old(nonce) == [] then [] else [old(nonce)]) + random;
      while true
        invariant 0 <= next <= |random| && |nonce| == NONCE_SIZE && counter == old(counter) && server.Valid()
        invariant id in server.clients <==> id in old(server.clients)
        invariant id in server.clients ==> Folded(server.clients[id]) == Folded(old(server.clients)[id]) &&
                                           server.clients[id].nonce == old(server.clients)[id].nonce
        invariant id in server.clients ==> nonce == old(nonce) || old(nonce) == []
        invariant refused + [nonce] + random[next..] == toTry && (refused != [] ==> id !in old(server.clients))
        invariant forall n :: NonceTaken(server.clients, n) <==> NonceTaken(old(server.clients), n)
        invariant forall n | n in refused :: NonceTaken(old(server.clients), n)
        decreases |random| - next
      {
        LoginAgrees(k, server.State(), State());
        ghost var before := server.State();
        var status := SendLogin(server);
        if status == Success || status == Unexpected {
          return true;
        }
        AllRefused(k, before, State());
        if next == |random| {
          assert toTry == refused + [nonce];
          assert forall n | n in random || n == old(nonce) != [] :: n in toTry;
          return false;
        }
        assert random[next..] == [random[next]] + random[next + 1..];
        refused := refused + [nonce];
        nonce := random[next];
        next := next + 1;
      }
    }

    /** One batch of the key exchange: send the masked hashes, take the keys from the answer, count the batch. */
    method KeyExchange(server: KeyEnclave, hashes: seq<Byte>, stray: nat -> Byte) returns (keys: Option<seq<Byte>>)
      requires Sound(k.crypto) && server.Valid() && server.k == k && id in server.clients && counter < WORD32
      requires |hashes| % HASH_SIZE == 0
      modifies this`counter, server`clients
      ensures (server.State(), State(), keys) == Exchange(k, old(server.State()), old(State()), hashes, stray)
    {
      hide Stream, Xor, Wrap32, Online, Request, Keygen, Receive, Exchange, Sound;
      var len := |hashes|;
      BatchMasks(k, State(), len);
      var base := GenerateMasks(k, nonce, counter, len / 32 * 4);
      var buffer := XorBuffers(hashes, base);
      var masked := buffer[..];
      var request := masked + k.crypto.hmac(k.session, masked);
      RequestIs(k, State(), hashes);
      var reply := server.KeygenCtr(id, request, stray);
      keys := None;
      if reply.Some? {
        keys := Unmask(reply.value, base, len);
      }
      counter := Wrap32(counter + len / 32 * 4);
      ExchangeParts(k, old(server.State()), old(State()), hashes, stray);
    }

    /** What the client makes of an answer. */
    method Unmask(reply: seq<Byte>, base: seq<Byte>, len: nat) returns (keys: Option<seq<Byte>>)
      requires Sound(k.crypto) && |reply| == len + 32 && |reply| % HASH_SIZE == 0 && len % HASH_SIZE == 0
      requires base == Online(k, nonce, counter, len)
      ensures keys == Receive(k, State(), reply)
    {
      var hmac := k.crypto.hmac(k.session, reply[..len]);
      if hmac != reply[len..] {
        return None;
      }
      var buffer := XorBuffers(reply[..len], base[len..]);
      keys := Some(buffer[..]);
    }
  }

  lemma BatchMasks(k: Setup, c: Client, len: nat)
    requires Sound(k.crypto) && len % HASH_SIZE == 0
    ensures Online(k, c.nonce, c.counter, len) == Stream(k, c.nonce, c.counter, len / 32 * 4)
    ensures (len / 32 * 4) % 2 == 0 && |Stream(k, c.nonce, c.counter, len / 32 * 4)| == 2 * len
  {
    hide Stream, Sound;
    assert len == len / 32 * 32;
  }

  lemma ExchangeParts(k: Setup, e: Enclave, c: Client, hashes: seq<Byte>, stray: nat -> Byte)
    requires Sound(k.crypto) && c.id in e.clients && |hashes| % HASH_SIZE == 0
    ensures var r := Keygen(k, e, c.id, Request(k, c, hashes), stray);
      && Exchange(k, e, c, hashes, stray) ==
         (r.0, c.(counter := Wrap32(c.counter + |hashes| / 32 * 4)), if r.1.None?
             then None else Receive(k, c, r.1.value))
      && (r.1.Some? ==> |r.1.value| == |hashes| + 32)
  {
  }
}
