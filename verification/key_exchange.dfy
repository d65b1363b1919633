/**
  The counter-mode key exchange between clients and the key enclave.

  Client and enclave each keep a counter and a nonce; both derive from them the same stream of
  masks, CTR mode as in section 6.5 of NIST SP 800-38A.  The enclave may take masks from a table it filled
  ahead of time instead of generating them.

  The block cipher, SHA-256, HMAC and the cipher of login messages are left uninterpreted.
 */
module KeyExchange {
  import opened Basics
  import opened Bytes

  type ClientId = int

  const BLOCK: nat := 16
  const NONCE_SIZE: nat := 12

  /** MAX_SPECULATIVE_KEY_SIZE_PER_CLIENT: bytes of masks filled ahead, for one client. */
  const TABLE_SIZE: nat := 83886080

  datatype Crypto = Crypto(
    block: (seq<Byte>, seq<Byte>) -> seq<Byte>,
    sha256: seq<Byte> -> seq<Byte>,
    hmac: (seq<Byte>, seq<Byte>) -> seq<Byte>,
    encrypt: (seq<Byte>, seq<Byte>) -> seq<Byte>,
    decrypt: (seq<Byte>, seq<Byte>) -> seq<Byte>)

  /** What is assumed of the primitives: output lengths, and decryption undoing encryption. */
  ghost predicate Sound(c: Crypto) {
    && (forall k, b :: |c.block(k, b)| == BLOCK)
    && (forall m :: |c.sha256(m)| == HASH_SIZE)
    && (forall k, m :: |c.hmac(k, m)| == 32)
    && (forall k, m :: |c.encrypt(k, m)| == |m|)
    && (forall k, m :: |c.decrypt(k, m)| == |m|)
    && (forall k, m :: c.decrypt(k, c.encrypt(k, m)) == m)
  }

  /** What both sides share for the session, and the secret of the enclave. */
  datatype Setup = Setup(crypto: Crypto, session: seq<Byte>, secret: seq<Byte>)

  /** keyGenerateCounter, currentKeyGenerateCounter, maskOffset, offlineFlag and nonce of a client. */
  datatype ClientInfo = ClientInfo(base: nat, current: nat, maskOffset: nat, offline: int, nonce: seq<Byte>)

  datatype Enclave = Enclave(clients: map<ClientId, ClientInfo>, table: seq<Byte>)

  datatype Client = Client(id: ClientId, nonce: seq<Byte>, counter: nat)

  datatype Status = Success | InvalidSignature | InvalidParameter | Unexpected

  // ---------------------------------------------------------------------------
  // The mask stream
  // ---------------------------------------------------------------------------

  function CounterBlock(nonce: seq<Byte>, counter: nat): seq<Byte> {
    Le32(Wrap32(counter)) + nonce
  }

  /** Mask blocks for n counters from the given one on; the counter wraps. */
  function Stream(k: Setup, nonce: seq<Byte>, counter: nat, n: nat): (s: seq<Byte>)
    ensures Sound(k.crypto) ==> |s| == BLOCK * n
    decreases n
  {
    if n == 0 then []
    else Stream(k, nonce, counter, n - 1) + k.crypto.block(k.session, CounterBlock(nonce, counter + n - 1))
  }

  /** key_j = SHA256(hash_j, secret) for each 32-byte hash. */
  function KeysOf(k: Setup, hashes: seq<Byte>): (s: seq<Byte>)
    ensures Sound(k.crypto) && |hashes| % HASH_SIZE == 0 ==> |s| == |hashes|
    decreases |hashes|
  {
    if |hashes| < HASH_SIZE then []
    else k.crypto.sha256(hashes[..HASH_SIZE] + k.secret) + KeysOf(k, hashes[HASH_SIZE..])
  }

  // ---------------------------------------------------------------------------
  // Login
  // ---------------------------------------------------------------------------

  function Folded(info: ClientInfo): ClientInfo {
    info.(base := Wrap32(info.base + info.current), current := 0)
  }

  function FoldAll(clients: map<ClientId, ClientInfo>): map<ClientId, ClientInfo> {
    map i | i in clients :: Folded(clients[i])
  }

  predicate NonceTaken(clients: map<ClientId, ClientInfo>, nonce: seq<Byte>) {
    exists i | i in clients :: clients[i].nonce == nonce
  }

  /** The effect of a login message on the clients, once it is authentic and decrypted. */
  function Register(clients: map<ClientId, ClientInfo>, id: ClientId, counter: nat, nonce: seq<Byte>)
    : (map<ClientId, ClientInfo>, Status)
  {
    if id !in clients then
      if NonceTaken(clients, nonce) then (clients, InvalidParameter)
      else (clients[id := ClientInfo(0, 0, 0, -1, nonce)], if counter == 0 then Success else Unexpected)
    else if clients[id].base == counter then (clients, Success)
    else (clients[id := clients[id].(base := 0, current := 0, offline := -1, nonce := nonce)], Unexpected)
  }

  /** ecall_clientStatusModify: every client's counts are folded first, whatever becomes of the login. */
  function Login(k: Setup, e: Enclave, id: ClientId, cipher: seq<Byte>, mac: seq<Byte>): (Enclave, Status)
    requires |k.crypto.decrypt(k.session, cipher)| == BLOCK
  {
    var folded := FoldAll(e.clients);
    if k.crypto.hmac(k.session, cipher) != mac then (e.(clients := folded), InvalidSignature)
    else
      var plain := k.crypto.decrypt(k.session, cipher);
      var r := Register(folded, id, FromLe32(plain[..4]), plain[4..]);
      (e.(clients := r.0), r.1)
  }

  function LoginCipher(k: Setup, c: Client): seq<Byte> {
    k.crypto.encrypt(k.session, Le32(Wrap32(c.counter)) + c.nonce)
  }

  /** The client's side of a login: a reset sets its counter to 0. */
  function AfterLogin(c: Client, status: Status): Client {
    if status == Unexpected then c.(counter := 0) else c
  }

  // ---------------------------------------------------------------------------
  // Batches
  // ---------------------------------------------------------------------------

  /** What reading the table yields; beyond its end, whatever memory holds. */
  function TableByte(table: seq<Byte>, stray: nat -> Byte, i: nat): Byte {
    if i < |table| then table[i] else stray(i)
  }

  /** The test at the first use of the mask; the sums are 32-bit. */
  predicate UsesTableFirst(info: ClientInfo, len: nat) {
    Wrap32(16 * Wrap32(info.current + len / 32 * 4)) < TABLE_SIZE && info.offline == 1
  }

  /** The test at the second use, which counts half as many bytes. */
  predicate UsesTableSecond(info: ClientInfo, len: nat) {
    Wrap32(Wrap32(info.current * 16) + len) < TABLE_SIZE && info.offline == 1
  }

  /** len bytes of the table from the client's place in it, moved on by skip. */
  function FromTable(info: ClientInfo, table: seq<Byte>, stray: nat -> Byte, skip: nat, len: nat): (m: seq<Byte>)
    ensures |m| == len
  {
    seq<Byte>(len, i requires 0 <= i < len =>
        TableByte(table, stray, Wrap32(info.maskOffset + info.current * 16 + skip + i)))
  }

  /** len bytes of memory never written. */
  function Unwritten(stray: nat -> Byte, len: nat): (m: seq<Byte>)
    ensures |m| == len
  {
    seq<Byte>(len, i requires 0 <= i < len => stray(i))
  }

  /** The buffer for generated masks: filled from the counter, unless the first use takes the table. */
  function Generated(k: Setup, info: ClientInfo, stray: nat -> Byte, len: nat): (m: seq<Byte>)
    requires Sound(k.crypto) && len % HASH_SIZE == 0
    ensures |m| == 2 * len
  {
    if UsesTableFirst(info, len) then Unwritten(stray, 2 * len)
    else Stream(k, info.nonce, info.base + info.current, len / 32 * 4)
  }

  /** The mask the enclave takes off the hashes. */
  function FirstMask(k: Setup, table: seq<Byte>, info: ClientInfo, stray: nat -> Byte, len: nat): (m: seq<Byte>)
    requires Sound(k.crypto) && len % HASH_SIZE == 0
    ensures |m| == len
  {
    if UsesTableFirst(info, len) then FromTable(info, table, stray, 0, len)
    else Generated(k, info, stray, len)[..len]
  }

  /** The mask the enclave puts on the keys. */
  function SecondMask(k: Setup, table: seq<Byte>, info: ClientInfo, stray: nat -> Byte, len: nat): (m: seq<Byte>)
    requires Sound(k.crypto) && len % HASH_SIZE == 0
    ensures |m| == len
  {
    if UsesTableSecond(info, len) then FromTable(info, table, stray, len, len)
    else Generated(k, info, stray, len)[len..]
  }

  /** The masks of a batch, first for the hashes and then for the keys, when generated from the counter. */
  function Online(k: Setup, nonce: seq<Byte>, counter: nat, len: nat): (m: seq<Byte>)
    requires Sound(k.crypto) && len % HASH_SIZE == 0
    ensures |m| == 2 * len
  {
    Stream(k, nonce, counter, len / 32 * 4)
  }

  /** ecall_keygen_ctr on a request of masked hashes and their HMAC; no reply when the HMAC is wrong. */
  function Keygen(k: Setup, e: Enclave, id: ClientId, src: seq<Byte>,
      stray: nat -> Byte): (r: (Enclave, Option<seq<Byte>>))
    requires Sound(k.crypto) && id in e.clients && HASH_SIZE <= |src| && |src| % HASH_SIZE == 0
    ensures r.1.Some? ==> |r.1.value| == |src|
  {
    var len := |src| - 32;
    var info := e.clients[id];
    if k.crypto.hmac(k.session, src[..len]) != src[len..] then (e, None)
    else
      var keys := KeysOf(k, Xor(src[..len], FirstMask(k, e.table, info, stray, len)));
      var reply := Xor(keys, SecondMask(k, e.table, info, stray, len));
      (e.(clients := e.clients[id := info.(current := Wrap32(info.current + len * 2 / 16))]),
       Some(reply + k.crypto.hmac(k.session, reply)))
  }

  lemma WithMac(k: Setup, m: seq<Byte>)
    requires Sound(k.crypto)
    ensures |k.crypto.hmac(k.session, m)| == 32 && (|m| % HASH_SIZE == 0 ==> (|m| + 32) % HASH_SIZE == 0)
  {
  }

  /** The client's request for the keys of the given hashes. */
  function Request(k: Setup, c: Client, hashes: seq<Byte>): (r: seq<Byte>)
    requires Sound(k.crypto) && |hashes| % HASH_SIZE == 0
    ensures |r| == |hashes| + 32 && |r| % HASH_SIZE == 0
  {
    hide Sound, Xor, Online, Stream, Wrap32;
    var masked := Xor(hashes, Online(k, c.nonce, c.counter, |hashes|));
    WithMac(k, masked);
    masked + k.crypto.hmac(k.session, masked)
  }

  /** The keys the client takes from a reply, unless its HMAC is wrong. */
  function Receive(k: Setup, c: Client, reply: seq<Byte>): Option<seq<Byte>>
    requires Sound(k.crypto) && HASH_SIZE <= |reply| && |reply| % HASH_SIZE == 0
  {
    var len := |reply| - 32;
    if k.crypto.hmac(k.session, reply[..len]) != reply[len..] then None
    else Some(Xor(reply[..len], Online(k, c.nonce, c.counter, len)[len..]))
  }

  /** One batch: request, reply, and both counters moved on by four per hash. */
  function Exchange(k: Setup, e: Enclave, c: Client, hashes: seq<Byte>, stray: nat -> Byte): (Enclave, Client,
      Option<seq<Byte>>)
    requires Sound(k.crypto) && c.id in e.clients && |hashes| % HASH_SIZE == 0
  {
    var r := Keygen(k, e, c.id, Request(k, c, hashes), stray);
    (r.0,
     c.(counter := Wrap32(c.counter + |hashes| / 32 * 4)),
     if r.1.None? then None else Receive(k, c, r.1.value))
  }

  /** ecall_setNextEncryptionMask: the table is filled for the client the iteration meets first. */
  function Generate(k: Setup, e: Enclave, first: ClientId): (r: Enclave)
    requires first in e.clients
  {
    var info := e.clients[first];
    Enclave(e.clients[first := info.(offline := 1, maskOffset := 0)],
            Stream(k, info.nonce, Wrap32(info.base + info.current), TABLE_SIZE / 16))
  }

  // ---------------------------------------------------------------------------
  // Facts about the stream
  // ---------------------------------------------------------------------------

  lemma {:induction false} StreamAppend(k: Setup, nonce: seq<Byte>, counter: nat, a: nat, b: nat)
    ensures Stream(k, nonce, counter, a + b) == Stream(k, nonce, counter, a) + Stream(k, nonce, counter + a, b)
    decreases b
  {
    if b > 0 {
      StreamAppend(k, nonce, counter, a, b - 1);
      hide Wrap32;
      var last := k.crypto.block(k.session, CounterBlock(nonce, counter + a + b - 1));
      assert Stream(k, nonce, counter, a + b) == Stream(k, nonce, counter, a + (b - 1)) + last;
    }
  }

  /** Block i of the stream is the block cipher's output for the count i further, as a 32-bit word of four bytes, and
      the nonce behind it. */
  lemma StreamAt(k: Setup, nonce: seq<Byte>, counter: nat, n: nat, i: nat)
    requires Sound(k.crypto) && i < n
    ensures Stream(k, nonce, counter, n)[BLOCK * i..BLOCK * (i + 1)] ==
            k.crypto.block(k.session, Le32((counter + i) % WORD32) + nonce)
  {
    StreamPart(k, nonce, counter, n, i, 1);
    OneBlock(k, nonce, counter + i);
  }

  lemma OneBlock(k: Setup, nonce: seq<Byte>, counter: nat)
    ensures Stream(k, nonce, counter, 1) == k.crypto.block(k.session, Le32(counter % WORD32) + nonce)
  {
    assert Stream(k, nonce, counter, 0) == [];
    hide Le32;
  }

  /** Key j is the SHA-256 of hash j and the secret behind it. */
  lemma {:induction false} KeyAt(k: Setup, hashes: seq<Byte>, j: nat)
    requires Sound(k.crypto) && |hashes| % HASH_SIZE == 0 && HASH_SIZE * (j + 1) <= |hashes|
    ensures |KeysOf(k, hashes)| == |hashes|
    ensures KeysOf(k, hashes)[HASH_SIZE * j..HASH_SIZE * (j + 1)] ==
            k.crypto.sha256(hashes[HASH_SIZE * j..HASH_SIZE * (j + 1)] + k.secret)
    decreases j
  {
    var first, rest := k.crypto.sha256(hashes[..HASH_SIZE] + k.secret), hashes[HASH_SIZE..];
    assert KeysOf(k, hashes) == first + KeysOf(k, rest);
    if j > 0 {
      KeyAt(k, rest, j - 1);
      hide KeysOf;
      assert hashes[HASH_SIZE * j..HASH_SIZE * (j + 1)] == rest[HASH_SIZE * (j - 1)..HASH_SIZE * j];
      assert (first + KeysOf(k, rest))[HASH_SIZE * j..HASH_SIZE * (j + 1)] ==
             KeysOf(k, rest)[HASH_SIZE * (j - 1)..HASH_SIZE * j];
    } else {
      hide KeysOf;
    }
  }

  lemma WrapAdd(x: int, d: int)
    ensures Wrap32(x + d) == Wrap32(Wrap32(x) + d)
  {
    assert x == WORD32 * (x / WORD32) + Wrap32(x);
  }

  /** Only the wrapped counter matters. */
  lemma {:induction false} StreamWraps(k: Setup, nonce: seq<Byte>, x: nat, y: nat, n: nat)
    requires Wrap32(x) == Wrap32(y)
    ensures Stream(k, nonce, x, n) == Stream(k, nonce, y, n)
    decreases n
  {
    if n > 0 {
      StreamWraps(k, nonce, x, y, n - 1);
      WrapAdd(x, n - 1);
      WrapAdd(y, n - 1);
      hide Wrap32;
      assert Wrap32(x + (n - 1)) == Wrap32(y + (n - 1));
    }
  }

  /** Bytes from block number skip on are those of the stream started skip counters later. */
  lemma StreamPart(k: Setup, nonce: seq<Byte>, counter: nat, n: nat, skip: nat, m: nat)
    requires Sound(k.crypto) && skip + m <= n
    ensures Stream(k, nonce, counter, n)[BLOCK * skip..BLOCK * (skip + m)] == Stream(k, nonce, counter + skip, m)
  {
    hide *;
    StreamAppend(k, nonce, counter, skip, n - skip);
    StreamAppend(k, nonce, counter + skip, m, n - skip - m);
    var a, b, c := Stream(k, nonce, counter, skip), Stream(k, nonce, counter + skip, m),
        Stream(k, nonce, counter + skip + m, n - skip - m);
    Middle(a, b, c);
    Sizes(skip, m);
  }

  lemma Sizes(skip: nat, m: nat)
    ensures BLOCK * skip + BLOCK * m == BLOCK * (skip + m)
  {
  }

  // ---------------------------------------------------------------------------
  // One batch
  // ---------------------------------------------------------------------------

  /** Client and enclave have the same nonce and the same count. */
  ghost predicate Lockstep(e: Enclave, c: Client) {
    && c.id in e.clients
    && c.nonce == e.clients[c.id].nonce && |c.nonce| == NONCE_SIZE
    && c.counter == Wrap32(e.clients[c.id].base + e.clients[c.id].current)
  }

  /** The enclave's masks for a batch are those generated from the client's counter. */
  ghost predicate MasksAgree(k: Setup, e: Enclave, c: Client, len: nat, stray: nat -> Byte)
    requires Sound(k.crypto) && c.id in e.clients && len % HASH_SIZE == 0
  {
    && FirstMask(k, e.table, e.clients[c.id], stray, len) == Online(k, c.nonce, c.counter, len)[..len]
    && SecondMask(k, e.table, e.clients[c.id], stray, len) == Online(k, c.nonce, c.counter, len)[len..]
  }

  lemma XorPrefix(a: seq<Byte>, b: seq<Byte>)
    requires |a| <= |b|
    ensures Xor(a, b) == Xor(a, b[..|a|])
  {
    hide XorByte;
  }

  /** What was put together is taken apart. */
  lemma SplitAt(a: seq<Byte>, b: seq<Byte>)
    ensures (a + b)[..|a|] == a && (a + b)[|a|..] == b
  {
  }

  /** The enclave's reply to masked hashes with their HMAC. */
  lemma KeygenReply(k: Setup, e: Enclave, id: ClientId, masked: seq<Byte>, stray: nat -> Byte)
    requires Sound(k.crypto) && id in e.clients && |masked| % HASH_SIZE == 0
    ensures var src := masked + k.crypto.hmac(k.session, masked); var len := |masked|; var info := e.clients[id];
      var keys := KeysOf(k, Xor(masked, FirstMask(k, e.table, info, stray, len)));
      && HASH_SIZE <= |src| && |src| % HASH_SIZE == 0 && |keys| == len
      && var reply := Xor(keys, SecondMask(k, e.table, info, stray, len));
      Keygen(k, e, id, src, stray).1 == Some(reply + k.crypto.hmac(k.session, reply))
  {
    WithMac(k, masked);
    SplitAt(masked, k.crypto.hmac(k.session, masked));
    hide Sound, Xor, KeysOf, FirstMask, SecondMask, Wrap32;
  }

  /** What the client takes from a reply with its HMAC. */
  lemma ReceivedReply(k: Setup, c: Client, reply: seq<Byte>)
    requires Sound(k.crypto) && |reply| % HASH_SIZE == 0
    ensures var src := reply + k.crypto.hmac(k.session, reply);
      && HASH_SIZE <= |src| && |src| % HASH_SIZE == 0
      && Receive(k, c, src) == Some(Xor(reply, Online(k, c.nonce, c.counter, |reply|)[|reply|..]))
  {
    WithMac(k, reply);
    SplitAt(reply, k.crypto.hmac(k.session, reply));
    hide Sound, Xor, Online;
  }

  /** Hashes masked and unmasked with the same mask. */
  lemma UnmaskedHashes(hashes: seq<Byte>, m: seq<Byte>)
    requires |hashes| <= |m|
    ensures Xor(Xor(hashes, m), m[..|hashes|]) == hashes
  {
    XorPrefix(hashes, m);
    XorTwice(hashes, m[..|hashes|]);
  }

  lemma ExchangeIs(k: Setup, e: Enclave, c: Client, hashes: seq<Byte>, stray: nat -> Byte)
    requires Sound(k.crypto) && c.id in e.clients && |hashes| % HASH_SIZE == 0
    ensures var masked := Xor(hashes, Online(k, c.nonce, c.counter, |hashes|));
      var src := masked + k.crypto.hmac(k.session, masked);
      && HASH_SIZE <= |src| && |src| % HASH_SIZE == 0
      && var r := Keygen(k, e, c.id, src, stray).1;
      Exchange(k, e, c, hashes, stray).2 == if r.None? then None else Receive(k, c, r.value)
  {
    hide Xor, Online, Keygen, Receive;
  }

  /** With agreeing masks the client unmasks exactly the key of each of its hashes, in order. */
  lemma ExchangeGivesKeys(k: Setup, e: Enclave, c: Client, hashes: seq<Byte>, stray: nat -> Byte)
    requires Sound(k.crypto) && c.id in e.clients && |hashes| % HASH_SIZE == 0
    requires MasksAgree(k, e, c, |hashes|, stray)
    ensures Exchange(k, e, c, hashes, stray).2 == Some(KeysOf(k, hashes))
  {
    var m := Online(k, c.nonce, c.counter, |hashes|);
    hide Sound, Xor, Online, FirstMask, SecondMask, KeysOf, Keygen, Receive, Exchange, Request;
    var masked := Xor(hashes, m);
    UnmaskedHashes(hashes, m);
    KeygenReply(k, e, c.id, masked, stray);
    ExchangeIs(k, e, c, hashes, stray);
    var reply := Xor(KeysOf(k, hashes), m[|hashes|..]);
    ReceivedReply(k, c, reply);
    XorTwice(KeysOf(k, hashes), m[|hashes|..]);
  }

  /** What goes over the wire is masked: the request holds the hashes and the reply their keys, each with the bits
      flipped where the stream has a one, and either is followed by its HMAC. */
  lemma MaskedOnTheWay(k: Setup, e: Enclave, c: Client, hashes: seq<Byte>, stray: nat -> Byte)
    requires Sound(k.crypto) && c.id in e.clients && |hashes| % HASH_SIZE == 0
    requires MasksAgree(k, e, c, |hashes|, stray)
    ensures var n, m := |hashes|, Online(k, c.nonce, c.counter, |hashes|);
      var request := Request(k, c, hashes);
      && IsXor(hashes, m[..n], request[..n]) && request[n..] == k.crypto.hmac(k.session, request[..n])
      && var reply := Keygen(k, e, c.id, request, stray).1;
      && reply.Some? && IsXor(KeysOf(k, hashes), m[n..], reply.value[..n])
      && reply.value[n..] == k.crypto.hmac(k.session, reply.value[..n])
  {
    var n, m := |hashes|, Online(k, c.nonce, c.counter, |hashes|);
    hide *;
    var masked := Xor(hashes, m);
    UnmaskedHashes(hashes, m);
    XorPrefix(hashes, m);
    XorExactly(hashes, m[..n], masked);
    RequestIs(k, c, hashes);
    SplitAt(masked, k.crypto.hmac(k.session, masked));
    KeygenReply(k, e, c.id, masked, stray);
    AgreeIs(k, e, c, n, stray);
    var reply := Xor(KeysOf(k, hashes), m[n..]);
    XorExactly(KeysOf(k, hashes), m[n..], reply);
    SplitAt(reply, k.crypto.hmac(k.session, reply));
  }

  lemma RequestIs(k: Setup, c: Client, hashes: seq<Byte>)
    requires Sound(k.crypto) && |hashes| % HASH_SIZE == 0
    ensures var masked := Xor(hashes, Online(k, c.nonce, c.counter, |hashes|));
      Request(k, c, hashes) == masked + k.crypto.hmac(k.session, masked)
  {
    hide Sound, Xor, Online;
  }

  lemma AgreeIs(k: Setup, e: Enclave, c: Client, len: nat, stray: nat -> Byte)
    requires Sound(k.crypto) && c.id in e.clients && len % HASH_SIZE == 0 && MasksAgree(k, e, c, len, stray)
    ensures FirstMask(k, e.table, e.clients[c.id], stray, len) == Online(k, c.nonce, c.counter, len)[..len]
    ensures SecondMask(k, e.table, e.clients[c.id], stray, len) == Online(k, c.nonce, c.counter, len)[len..]
  {
  }

  /** No mask is used twice: the masks of a batch of m hashes and those of the next one, of n hashes, are the parts of
      one stream, one after the other, four blocks a hash. */
  lemma MasksFollowOn(k: Setup, e: Enclave, c: Client, hashes: seq<Byte>, stray: nat -> Byte, next: nat, m: nat, n: nat)
    requires Sound(k.crypto) && c.id in e.clients && |hashes| % HASH_SIZE == 0 && next % HASH_SIZE == 0
    requires m == |hashes| / 32 * 4 && n == next / 32 * 4
    ensures var d := Exchange(k, e, c, hashes, stray).1;
      && d.nonce == c.nonce
      && Online(k, c.nonce, c.counter, |hashes|) + Online(k, d.nonce, d.counter, next) ==
         Stream(k, c.nonce, c.counter, m + n)
  {
    hide Sound, Stream, Online, Exchange, Wrap32;
    FollowOn(k, c.nonce, c.counter, m, n);
    ExchangeCounts(k, e, c, hashes, stray);
    OnlineIs(k, c.nonce, c.counter, |hashes|);
    OnlineIs(k, c.nonce, Wrap32(c.counter + m), next);
  }

  lemma FollowOn(k: Setup, nonce: seq<Byte>, counter: nat, a: nat, b: nat)
    ensures Stream(k, nonce, counter, a) + Stream(k, nonce, Wrap32(counter + a), b) == Stream(k, nonce, counter, a + b)
  {
    StreamAppend(k, nonce, counter, a, b);
    WrapAdd(counter + a, 0);
    hide *;
    StreamWraps(k, nonce, Wrap32(counter + a), counter + a, b);
  }

  lemma ExchangeCounts(k: Setup, e: Enclave, c: Client, hashes: seq<Byte>, stray: nat -> Byte)
    requires Sound(k.crypto) && c.id in e.clients && |hashes| % HASH_SIZE == 0
    ensures Exchange(k, e, c, hashes, stray).1 == c.(counter := Wrap32(c.counter + |hashes| / 32 * 4))
  {
    hide Sound, Keygen, Request, Receive, Wrap32;
  }

  lemma OnlineIs(k: Setup, nonce: seq<Byte>, counter: nat, len: nat)
    requires Sound(k.crypto) && len % HASH_SIZE == 0
    ensures Online(k, nonce, counter, len) == Stream(k, nonce, counter, len / 32 * 4)
  {
    hide Sound, Stream;
  }

  /** A request, reply or login whose HMAC is wrong is refused, and only those with a right one get an answer.  A
      refused request leaves the enclave as it was; a refused login leaves everybody's nonce and count so, and whoever
      was in lockstep stays in it. */
  lemma WrongMacRefused(k: Setup, e: Enclave, c: Client, id: ClientId, cipher: seq<Byte>, src: seq<Byte>,
      mac: seq<Byte>, stray: nat -> Byte)
    requires Sound(k.crypto) && id in e.clients && |src| % HASH_SIZE == 0 && |mac| == 32 && |cipher| == BLOCK
    ensures var right := k.crypto.hmac(k.session, src) == mac; var r := Keygen(k, e, id, src + mac, stray);
      && (r.1.Some? <==> right) && (!right ==> r.0 == e)
      && (Receive(k, c, src + mac).Some? <==> right)
    ensures var r := Login(k, e, id, cipher, mac);
      && (r.1 == InvalidSignature <==> k.crypto.hmac(k.session, cipher) != mac)
      && (r.1 == InvalidSignature ==> forall d: Client :: Lockstep(e, d) <==> Lockstep(r.0, d))
  {
    WithMac(k, src);
    SplitAt(src, mac);
    hide KeysOf, Xor, FirstMask, SecondMask, Online;
    forall i | i in e.clients
      ensures Wrap32(Folded(e.clients[i]).base) == Wrap32(e.clients[i].base + e.clients[i].current)
    {
      WrapAdd(e.clients[i].base + e.clients[i].current, 0);
    }
  }

  /** Batches that do not use the table always agree. */
  lemma OnlineAgrees(k: Setup, e: Enclave, c: Client, len: nat, stray: nat -> Byte)
    requires Sound(k.crypto) && Lockstep(e, c) && len % HASH_SIZE == 0
    requires !UsesTableFirst(e.clients[c.id], len) && !UsesTableSecond(e.clients[c.id], len)
    ensures MasksAgree(k, e, c, len, stray)
  {
    var info := e.clients[c.id];
    WrapAdd(info.base + info.current, 0);
    StreamWraps(k, c.nonce, c.counter, info.base + info.current, len / 32 * 4);
    hide Stream, Wrap32, UsesTableFirst, UsesTableSecond;
  }

  /** The table holds the client's stream from a count equal, as a word, to the count at its last login. */
  ghost predicate Fresh(k: Setup, e: Enclave, id: ClientId, start: nat) {
    && id in e.clients
    && e.clients[id].maskOffset == 0
    && e.table == Stream(k, e.clients[id].nonce, start, TABLE_SIZE / 16)
    && Wrap32(start) == Wrap32(e.clients[id].base)
  }

  /** Reads within the table are a slice of it, wherever the 32-bit sum begins. */
  lemma FromTableInside(info: ClientInfo, table: seq<Byte>, stray: nat -> Byte, skip: nat, len: nat)
    requires info.maskOffset == 0 && Wrap32(info.current * BLOCK + skip) + len <= |table| == TABLE_SIZE
    ensures var at := Wrap32(info.current * BLOCK + skip);
      FromTable(info, table, stray, skip, len) == table[at..at + len]
  {
    var at := Wrap32(info.current * BLOCK + skip);
    forall i | 0 <= i < len
      ensures FromTable(info, table, stray, skip, len)[i] == table[at..at + len][i]
    {
      WrapAdd(info.current * BLOCK + skip, i);
      assert Wrap32(info.maskOffset + info.current * 16 + skip + i) == at + i;
      assert TableByte(table, stray, at + i) == table[at..at + len][i];
    }
  }

  /** A run of the table within its bounds is the generated stream from the block where the 32-bit sum begins. */
  lemma TableRunAt(k: Setup, e: Enclave, id: ClientId, start: nat, stray: nat -> Byte, skip: nat, n: nat, at: nat)
    requires Sound(k.crypto) && Fresh(k, e, id, start)
    requires Wrap32(BLOCK * (e.clients[id].current + skip)) == BLOCK * at && BLOCK * (at + n) <= TABLE_SIZE
    ensures FromTable(e.clients[id], e.table, stray, BLOCK * skip, BLOCK * n) ==
            Stream(k, e.clients[id].nonce, start + at, n)
  {
    var info := e.clients[id];
    assert |e.table| == TABLE_SIZE;
    StreamPart(k, info.nonce, start, TABLE_SIZE / 16, at, n);
    hide Stream, Sound, Wrap32;
    assert info.current * BLOCK + BLOCK * skip == BLOCK * (info.current + skip);
    FromTableInside(info, e.table, stray, BLOCK * skip, BLOCK * n);
  }

  /** A run of the table within its bounds is the generated stream. */
  lemma TableRun(k: Setup, e: Enclave, id: ClientId, start: nat, stray: nat -> Byte, skip: nat, n: nat)
    requires Sound(k.crypto) && Fresh(k, e, id, start)
    requires BLOCK * (e.clients[id].current + skip + n) <= TABLE_SIZE
    ensures FromTable(e.clients[id], e.table, stray, BLOCK * skip, BLOCK * n) ==
            Stream(k, e.clients[id].nonce, start + e.clients[id].current + skip, n)
  {
    var at := e.clients[id].current + skip;
    assert Wrap32(BLOCK * at) == BLOCK * at;
    hide Stream, Sound, Wrap32, Fresh;
    TableRunAt(k, e, id, start, stray, skip, n, at);
    assert start + at == start + e.clients[id].current + skip;
  }

  /** While 16 * current + 2 * length stays within the table, the table gives what would be generated. */
  lemma OfflineAgrees(k: Setup, e: Enclave, c: Client, start: nat, len: nat, stray: nat -> Byte)
    requires Sound(k.crypto) && Lockstep(e, c) && Fresh(k, e, c.id, start) && len % HASH_SIZE == 0
    requires 16 * e.clients[c.id].current + 2 * len <= TABLE_SIZE
    ensures MasksAgree(k, e, c, len, stray)
  {
    hide Stream, FromTable, Sound, UsesTableFirst, UsesTableSecond, Online, Wrap32, Unwritten, Fresh;
    var info := e.clients[c.id];
    var n := len / 32 * 2;
    assert BLOCK * n == len && BLOCK * 0 == 0 && start + info.current + 0 == start + info.current;
    TableRun(k, e, c.id, start, stray, 0, n);
    TableRun(k, e, c.id, start, stray, n, n);
    FreshBase(k, e, c.id, start);
    OnlineHalves(k, e, c, start, len);
    GuardsNest(info, len);
  }

  lemma FreshBase(k: Setup, e: Enclave, id: ClientId, start: nat)
    requires Fresh(k, e, id, start)
    ensures id in e.clients && Wrap32(start) == Wrap32(e.clients[id].base)
  {
  }

  /** Below the bound no sum wraps, so the second use takes the table whenever the first does. */
  lemma GuardsNest(info: ClientInfo, len: nat)
    requires 16 * info.current + 2 * len <= TABLE_SIZE && len % HASH_SIZE == 0
    ensures UsesTableFirst(info, len) ==> UsesTableSecond(info, len)
  {
  }

  /** The generated masks as the stream of the table continued. */
  lemma OnlineHalves(k: Setup, e: Enclave, c: Client, start: nat, len: nat)
    requires Sound(k.crypto) && Lockstep(e, c) && Wrap32(start) == Wrap32(e.clients[c.id].base) && len % HASH_SIZE == 0
    ensures var n, at := len / 32 * 2, start + e.clients[c.id].current;
      && Online(k, c.nonce, c.counter, len)[..len] == Stream(k, c.nonce, at, n)
      && Online(k, c.nonce, c.counter, len)[len..] == Stream(k, c.nonce, at + n, n)
      && Stream(k, c.nonce, e.clients[c.id].base + e.clients[c.id].current, len / 32 * 4) ==
           Online(k, c.nonce, c.counter, len)
  {
    hide Stream, Wrap32, Sound;
    var info := e.clients[c.id];
    var n, at := len / 32 * 2, start + info.current;
    WrapAdd(start, info.current);
    WrapAdd(info.base, info.current);
    WrapAdd(info.base + info.current, 0);
    StreamWraps(k, c.nonce, c.counter, at, len / 32 * 4);
    StreamWraps(k, c.nonce, c.counter, info.base + info.current, len / 32 * 4);
    StreamAppend(k, c.nonce, at, n, n);
    assert n + n == len / 32 * 4;
    assert |Stream(k, c.nonce, at, n)| == BLOCK * n == len;
  }

  // ---------------------------------------------------------------------------
  // Logins
  // ---------------------------------------------------------------------------

  /** The login message of a client is authentic and decrypts to its counter and nonce. */
  lemma LoginMessage(k: Setup, c: Client)
    requires Sound(k.crypto) && |c.nonce| == NONCE_SIZE && c.counter < WORD32
    ensures |k.crypto.decrypt(k.session, LoginCipher(k, c))| == BLOCK
    ensures var plain := k.crypto.decrypt(k.session, LoginCipher(k, c));
      FromLe32(plain[..4]) == c.counter && plain[4..] == c.nonce
  {
    Le32RoundTrip(c.counter);
    assert Wrap32(c.counter) == c.counter;
    hide Le32, FromLe32;
    assert k.crypto.decrypt(k.session, LoginCipher(k, c)) == Le32(c.counter) + c.nonce;
    SplitAt(Le32(c.counter), c.nonce);
  }

  function LoginMac(k: Setup, c: Client): seq<Byte> {
    k.crypto.hmac(k.session, LoginCipher(k, c))
  }

  /** A login that ends in success or in a reset leaves client and enclave with equal counters and nonces,
      and nothing left to fold.  A returning client is assumed to present the nonce it registered,
      because a login with a matching counter keeps the old one. */
  lemma LoginAgrees(k: Setup, e: Enclave, c: Client)
    requires Sound(k.crypto) && |c.nonce| == NONCE_SIZE && c.counter < WORD32
    requires |k.crypto.decrypt(k.session, LoginCipher(k, c))| == BLOCK
    requires c.id in e.clients && Folded(e.clients[c.id]).base == c.counter ==> e.clients[c.id].nonce == c.nonce
    ensures var r := Login(k, e, c.id, LoginCipher(k, c), LoginMac(k, c));
      var c' := AfterLogin(c, r.1);
      && (r.1 == Success || r.1 == Unexpected || r.1 == InvalidParameter)
      && (r.1 != InvalidParameter ==>
            && Lockstep(r.0, c')
            && r.0.clients[c.id].base == c'.counter && r.0.clients[c.id].current == 0)
      && (r.1 == InvalidParameter <==> c.id !in e.clients && NonceTaken(FoldAll(e.clients), c.nonce))
  {
    LoginMessage(k, c);
    hide Sound, LoginCipher, FromLe32;
  }

  /** A login is refused for its nonce only, and leaves every client's nonce as it was. */
  lemma LoginRefused(k: Setup, e: Enclave, c: Client, nonce: seq<Byte>)
    requires Sound(k.crypto) && |c.nonce| == NONCE_SIZE && c.counter < WORD32
    requires |k.crypto.decrypt(k.session, LoginCipher(k, c))| == BLOCK
    requires Login(k, e, c.id, LoginCipher(k, c), LoginMac(k, c)).1 == InvalidParameter
    ensures var clients := Login(k, e, c.id, LoginCipher(k, c), LoginMac(k, c)).0.clients;
      clients.Keys == e.clients.Keys && (NonceTaken(clients, nonce) <==> NonceTaken(e.clients, nonce))
    ensures c.id !in e.clients && NonceTaken(e.clients, c.nonce)
  {
    LoginMessage(k, c);
    FoldedNonces(e.clients, nonce);
    FoldedNonces(e.clients, c.nonce);
    hide Sound, LoginCipher, FromLe32, Wrap32, NonceTaken;
  }

  lemma FoldedNonces(clients: map<ClientId, ClientInfo>, nonce: seq<Byte>)
    ensures NonceTaken(FoldAll(clients), nonce) <==> NonceTaken(clients, nonce)
  {
    hide Wrap32;
    var folded := FoldAll(clients);
    assert forall i | i in clients :: folded[i].nonce == clients[i].nonce;
  }

  /** The nonce kept by a login with a matching counter is the old one, so the assumption above is needed. */
  lemma MatchingLoginKeepsNonce(k: Setup, e: Enclave, c: Client)
    requires Sound(k.crypto) && |c.nonce| == NONCE_SIZE && c.counter < WORD32
    requires |k.crypto.decrypt(k.session, LoginCipher(k, c))| == BLOCK
    requires c.id in e.clients && Folded(e.clients[c.id]).base == c.counter
    ensures var r := Login(k, e, c.id, LoginCipher(k, c), LoginMac(k, c));
      r.1 == Success && (Lockstep(r.0, AfterLogin(c, r.1)) <==> e.clients[c.id].nonce == c.nonce)
  {
    LoginMessage(k, c);
    hide Sound, LoginCipher, FromLe32;
    WrapAdd(c.counter, 0);
  }

  // ---------------------------------------------------------------------------
  // Runs
  // ---------------------------------------------------------------------------

  /** What can happen to the enclave while one client c is watched. */
  datatype Op =
    | FillTable(first: ClientId)
    | LoginOf(id: ClientId, cipher: seq<Byte>, mac: seq<Byte>)
    | OwnLogin
    | OtherBatch(id: ClientId, src: seq<Byte>)
    | OwnBatch(hashes: seq<Byte>)

  datatype System = System(e: Enclave, c: Client, keys: seq<Option<seq<Byte>>>)

  /** The operation can take place, and is by whom it says. */
  ghost predicate Possible(k: Setup, s: System, op: Op) {
    match op
    case FillTable(first) => first in s.e.clients
    case LoginOf(id, cipher, mac) => id != s.c.id && |cipher| == BLOCK
    case OwnLogin => |s.c.nonce| == NONCE_SIZE
    case OtherBatch(id, src) => id != s.c.id && id in s.e.clients && HASH_SIZE <= |src| && |src| % HASH_SIZE == 0
    case OwnBatch(hashes) => s.c.id in s.e.clients && |hashes| % HASH_SIZE == 0
  }

  ghost function Do(k: Setup, s: System, op: Op, stray: nat -> Byte): System
    requires Sound(k.crypto) && Possible(k, s, op)
  {
    match op
    case FillTable(first) => s.(e := Generate(k, s.e, first))
    case LoginOf(id, cipher, mac) => s.(e := Login(k, s.e, id, cipher, mac).0)
    case OwnLogin =>
      var r := Login(k, s.e, s.c.id, LoginCipher(k, s.c), LoginMac(k, s.c));
      s.(e := r.0, c := AfterLogin(s.c, r.1))
    case OtherBatch(id, src) => s.(e := Keygen(k, s.e, id, src, stray).0)
    case OwnBatch(hashes) =>
      var r := Exchange(k, s.e, s.c, hashes, stray);
      System(r.0, r.1, s.keys + [r.2])
  }

  /** Lockstep survives every operation of the client itself and of anybody else. */
  lemma StepKeepsLockstep(k: Setup, s: System, op: Op, stray: nat -> Byte)
    requires Sound(k.crypto) && Lockstep(s.e, s.c) && Possible(k, s, op)
    ensures Lockstep(Do(k, s, op, stray).e, Do(k, s, op, stray).c)
  {
    match op
    case FillTable(first) =>
    case LoginOf(id, cipher, mac) => OtherLogin(k, s.e, id, cipher, mac, s.c);
    case OwnLogin =>
      LoginMessage(k, s.c);
      LoginAgrees(k, s.e, s.c);
    case OtherBatch(id, src) =>
      hide Sound, Wrap32;
      assert Keygen(k, s.e, id, src, stray).0.clients[s.c.id] == s.e.clients[s.c.id];
    case OwnBatch(hashes) => BatchKeepsLockstep(k, s.e, s.c, hashes, stray);
  }

  lemma OtherLogin(k: Setup, e: Enclave, id: ClientId, cipher: seq<Byte>, mac: seq<Byte>, c: Client)
    requires Sound(k.crypto) && Lockstep(e, c) && id != c.id && |cipher| == BLOCK
    ensures Lockstep(Login(k, e, id, cipher, mac).0, c)
    ensures Login(k, e, id, cipher, mac).0.clients[c.id] == Folded(e.clients[c.id])
    ensures Login(k, e, id, cipher, mac).0.table == e.table
  {
    hide FromLe32, NonceTaken;
    WrapAdd(e.clients[c.id].base + e.clients[c.id].current, 0);
  }

  /** Both sides count a batch the same. */
  lemma BatchKeepsLockstep(k: Setup, e: Enclave, c: Client, hashes: seq<Byte>, stray: nat -> Byte)
    requires Sound(k.crypto) && Lockstep(e, c) && |hashes| % HASH_SIZE == 0
    ensures var r := Exchange(k, e, c, hashes, stray);
      && Lockstep(r.0, r.1) && r.1.id == c.id && r.1.nonce == c.nonce
      && r.0.clients[c.id] == e.clients[c.id].(current := Wrap32(e.clients[c.id].current + |hashes| * 2 / 16))
      && r.0.table == e.table
  {
    var info := e.clients[c.id];
    var masked := Xor(hashes, Online(k, c.nonce, c.counter, |hashes|));
    SplitAt(masked, k.crypto.hmac(k.session, masked));
    CountsAdvance(info.base, info.current, |hashes|);
    hide Wrap32, FirstMask, SecondMask, Xor, KeysOf, Online;
  }

  lemma CountsAdvance(base: nat, current: nat, len: nat)
    requires len % HASH_SIZE == 0
    ensures Wrap32(Wrap32(base + current) + len / 32 * 4) == Wrap32(base + Wrap32(current + len * 2 / 16))
  {
    var d := len / 32 * 4;
    assert len * 2 / 16 == d;
    hide Wrap32;
    WrapAdd(base + current, d);
    WrapAdd(current + d, base);
    assert current + d + base == base + current + d;
    assert Wrap32(current + d) + base == base + Wrap32(current + d);
  }

  ghost predicate RunPossible(k: Setup, s: System, run: seq<Op>, stray: nat -> Byte)
    requires Sound(k.crypto)
    decreases |run|
  {
    run == [] || (Possible(k, s, run[0]) && RunPossible(k, Do(k, s, run[0], stray), run[1..], stray))
  }

  ghost function After(k: Setup, s: System, run: seq<Op>, stray: nat -> Byte): System
    requires Sound(k.crypto) && RunPossible(k, s, run, stray)
    decreases |run|
  {
    if run == [] then s else After(k, Do(k, s, run[0], stray), run[1..], stray)
  }

  /** Once in lockstep, whatever clients log in, exchange batches or have masks generated, client and enclave stay in
      lockstep. */
  lemma {:induction false} RunKeepsLockstep(k: Setup, s: System, run: seq<Op>, stray: nat -> Byte)
    requires Sound(k.crypto) && Lockstep(s.e, s.c) && RunPossible(k, s, run, stray)
    ensures Lockstep(After(k, s, run, stray).e, After(k, s, run, stray).c)
    decreases |run|
  {
    if run != [] {
      hide Do, Sound;
      StepKeepsLockstep(k, s, run[0], stray);
      RunKeepsLockstep(k, Do(k, s, run[0], stray), run[1..], stray);
    }
  }

  /** Logins, and batches of others. */
  predicate NoOwnBatch(run: seq<Op>) {
    forall i | 0 <= i < |run| :: run[i].LoginOf? || run[i].OwnLogin? || run[i].OtherBatch?
  }

  predicate HasLogin(run: seq<Op>) {
    exists i | 0 <= i < |run| :: run[i].LoginOf? || run[i].OwnLogin?
  }

  predicate OnlyBatches(run: seq<Op>) {
    forall i | 0 <= i < |run| :: run[i].OwnBatch? || run[i].OtherBatch?
  }

  /** The bytes of hashes the client sends in a run. */
  function HashBytes(run: seq<Op>): nat {
    if run == [] then 0 else (if run[0].OwnBatch? then |run[0].hashes| else 0) + HashBytes(run[1..])
  }

  /** The keys the client should get for its batches. */
  function Wanted(k: Setup, run: seq<Op>): seq<Option<seq<Byte>>> {
    if run == [] then []
    else (if run[0].OwnBatch? then [Some(KeysOf(k, run[0].hashes))] else []) + Wanted(k, run[1..])
  }

  /** The table was filled for the client from start on, and the client's count has not moved since. */
  ghost predicate Filled(k: Setup, s: System, start: nat) {
    && Lockstep(s.e, s.c)
    && s.e.clients[s.c.id].maskOffset == 0
    && s.e.table == Stream(k, s.c.nonce, start, TABLE_SIZE / 16)
    && Wrap32(start) == Wrap32(s.e.clients[s.c.id].base + s.e.clients[s.c.id].current)
  }

  /** A batch of another client touches neither the table nor this client's counts. */
  lemma OtherBatchFrame(k: Setup, s: System, op: Op, stray: nat -> Byte)
    requires Sound(k.crypto) && Lockstep(s.e, s.c) && Possible(k, s, op) && op.OtherBatch?
    ensures var s' := Do(k, s, op, stray);
      s'.c == s.c && s'.keys == s.keys && s'.e.table == s.e.table && s.c.id in s'.e.clients
      && s'.e.clients[s.c.id] == s.e.clients[s.c.id]
  {
    hide Sound, FirstMask, SecondMask, Xor, KeysOf, Wrap32;
  }

  /** A login folds the client's counts and touches neither the table nor the client. */
  lemma LoginFrame(k: Setup, s: System, op: Op, stray: nat -> Byte)
    requires Sound(k.crypto) && Lockstep(s.e, s.c) && Possible(k, s, op) && (op.LoginOf? || op.OwnLogin?)
    ensures var s' := Do(k, s, op, stray);
      s'.c == s.c && s'.keys == s.keys && s'.e.table == s.e.table && s.c.id in s'.e.clients
      && s'.e.clients[s.c.id] == Folded(s.e.clients[s.c.id])
  {
    if op.LoginOf? {
      OtherLogin(k, s.e, op.id, op.cipher, op.mac, s.c);
    } else {
      LoginMessage(k, s.c);
      hide Sound, LoginCipher, FromLe32;
    }
  }

  lemma {:induction false} LoginsFold(k: Setup, s: System, run: seq<Op>, stray: nat -> Byte, start: nat)
    requires Sound(k.crypto) && Filled(k, s, start) && RunPossible(k, s, run, stray) && NoOwnBatch(run)
    ensures var s' := After(k, s, run, stray);
      && Filled(k, s', start) && s'.c == s.c && s'.keys == s.keys
      && (s.e.clients[s.c.id].current == 0 || HasLogin(run) ==> s'.e.clients[s.c.id].current == 0)
    decreases |run|
  {
    if run != [] {
      var s1 := Do(k, s, run[0], stray);
      StepKeepsLockstep(k, s, run[0], stray);
      if run[0].OtherBatch? {
        OtherBatchFrame(k, s, run[0], stray);
      } else {
        LoginFrame(k, s, run[0], stray);
        WrapAdd(s.e.clients[s.c.id].base + s.e.clients[s.c.id].current, 0);
      }
      hide Do, Sound, Stream, Wrap32;
      assert HasLogin(run) ==> HasLogin(run[1..]) || !run[0].OtherBatch?;
      LoginsFold(k, s1, run[1..], stray, start);
    }
  }

  lemma {:induction false} BatchesAgree(k: Setup, s: System, run: seq<Op>, stray: nat -> Byte, start: nat)
    requires Sound(k.crypto) && Lockstep(s.e, s.c) && Fresh(k, s.e, s.c.id, start)
    requires RunPossible(k, s, run, stray) && OnlyBatches(run)
    requires 16 * s.e.clients[s.c.id].current + 2 * HashBytes(run) <= TABLE_SIZE
    ensures After(k, s, run, stray).keys == s.keys + Wanted(k, run)
    decreases |run|
  {
    if run != [] {
      var s1 := Do(k, s, run[0], stray);
      StepKeepsLockstep(k, s, run[0], stray);
      hide Sound, KeysOf;
      if run[0].OtherBatch? {
        OtherBatchFrame(k, s, run[0], stray);
      } else {
        OwnBatchStep(k, s, run[0].hashes, stray, start);
      }
      hide Do, Stream, Wrap32;
      BatchesAgree(k, s1, run[1..], stray, start);
    }
  }

  lemma BatchCount(current: nat, len: nat)
    requires 16 * current + 2 * len <= TABLE_SIZE && len % HASH_SIZE == 0
    ensures 16 * Wrap32(current + len * 2 / 16) == 16 * current + 2 * len
  {
    var n := len / HASH_SIZE;
    assert len == HASH_SIZE * n && len * 2 / 16 == 4 * n;
    assert Wrap32(current + 4 * n) == current + 4 * n;
  }

  lemma OwnBatchStep(k: Setup, s: System, hashes: seq<Byte>, stray: nat -> Byte, start: nat)
    requires Sound(k.crypto) && Lockstep(s.e, s.c) && Fresh(k, s.e, s.c.id, start) && |hashes| % HASH_SIZE == 0
    requires 16 * s.e.clients[s.c.id].current + 2 * |hashes| <= TABLE_SIZE
    ensures var s' := Do(k, s, OwnBatch(hashes), stray);
      && s'.keys == s.keys + [Some(KeysOf(k, hashes))]
      && s'.c.id == s.c.id && Fresh(k, s'.e, s.c.id, start)
      && 16 * s'.e.clients[s.c.id].current == 16 * s.e.clients[s.c.id].current + 2 * |hashes|
  {
    hide Stream, Exchange, MasksAgree, KeysOf, Wrap32, Sound;
    OfflineAgrees(k, s.e, s.c, start, |hashes|, stray);
    ExchangeGivesKeys(k, s.e, s.c, hashes, stray);
    BatchKeepsLockstep(k, s.e, s.c, hashes, stray);
    BatchCount(s.e.clients[s.c.id].current, |hashes|);
  }

  /** Masks generated for the client, then logins, then batches: taking masks from the table gives the client the very
      keys it should get, whatever other clients do in between, as long as its batches stay within the table. */
  lemma OfflineRun(k: Setup, s: System, logins: seq<Op>, batches: seq<Op>, stray: nat -> Byte)
    requires Sound(k.crypto) && Lockstep(s.e, s.c)
    requires NoOwnBatch(logins) && HasLogin(logins) && OnlyBatches(batches) && 2 * HashBytes(batches) <= TABLE_SIZE
    requires Possible(k, s, FillTable(s.c.id))
    requires RunPossible(k, Do(k, s, FillTable(s.c.id), stray), logins, stray)
    requires RunPossible(k, After(k, Do(k, s, FillTable(s.c.id), stray), logins, stray), batches, stray)
    ensures var s1 := After(k, Do(k, s, FillTable(s.c.id), stray), logins, stray);
      After(k, s1, batches, stray).keys == s.keys + Wanted(k, batches)
  {
    var s0 := Do(k, s, FillTable(s.c.id), stray);
    var start := Wrap32(s.e.clients[s.c.id].base + s.e.clients[s.c.id].current);
    WrapAdd(s.e.clients[s.c.id].base + s.e.clients[s.c.id].current, 0);
    assert Filled(k, s0, start);
    hide Do, Sound, Stream, Wrap32;
    LoginsFold(k, s0, logins, stray, start);
    BatchesAgree(k, After(k, s0, logins, stray), batches, stray, start);
  }

  // ---------------------------------------------------------------------------
  // Where the table departs from the generated stream
  // ---------------------------------------------------------------------------

  /** Different blocks have different images, as for every block cipher. */
  ghost predicate Injective(c: Crypto) {
    forall k, a, b | |a| == BLOCK && |b| == BLOCK && c.block(k, a) == c.block(k, b) :: a == b
  }

  lemma FirstBlock(k: Setup, nonce: seq<Byte>, counter: nat, n: nat)
    requires Sound(k.crypto) && n > 0
    ensures BLOCK <= |Stream(k, nonce, counter, n)|
    ensures Stream(k, nonce, counter, n)[..BLOCK] == k.crypto.block(k.session, CounterBlock(nonce, counter))
  {
    StreamAppend(k, nonce, counter, 1, n - 1);
    assert Stream(k, nonce, counter, 1) == Stream(k, nonce, counter, 0)
        + k.crypto.block(k.session, CounterBlock(nonce, counter));
    SplitAt(Stream(k, nonce, counter, 1), Stream(k, nonce, counter + 1, n - 1));
    hide Stream;
  }

  lemma StreamsDiffer(k: Setup, nonce: seq<Byte>, x: nat, y: nat, n: nat)
    requires Sound(k.crypto) && Injective(k.crypto) && n > 0 && |nonce| == NONCE_SIZE
    ensures Stream(k, nonce, x, n) == Stream(k, nonce, y, n) <==> Wrap32(x) == Wrap32(y)
  {
    if Wrap32(x) == Wrap32(y) {
      StreamWraps(k, nonce, x, y, n);
    } else if Stream(k, nonce, x, n) == Stream(k, nonce, y, n) {
      FirstBlock(k, nonce, x, n);
      FirstBlock(k, nonce, y, n);
      hide Stream, Wrap32;
      var a, b := CounterBlock(nonce, x), CounterBlock(nonce, y);
      assert a == b;
      assert a[..4] == Le32(Wrap32(x)) && b[..4] == Le32(Wrap32(y));
      Le32RoundTrip(Wrap32(x));
      Le32RoundTrip(Wrap32(y));
    }
  }

  /** With a table filled from start on, a batch gets the generated masks if and only if the client's base count is
      start: a table goes stale when a login folds the counts of batches made since it was filled. */
  lemma StaleTable(k: Setup, e: Enclave, c: Client, start: nat, len: nat, stray: nat -> Byte)
    requires Sound(k.crypto) && Injective(k.crypto) && Lockstep(e, c) && len % HASH_SIZE == 0 && len > 0
    requires e.clients[c.id].offline == 1 && e.clients[c.id].maskOffset == 0
    requires e.table == Stream(k, c.nonce, start, TABLE_SIZE / 16)
    requires 16 * e.clients[c.id].current + 2 * len < TABLE_SIZE
    ensures MasksAgree(k, e, c, len, stray) <==> Wrap32(start) == Wrap32(e.clients[c.id].base)
  {
    if Wrap32(start) == Wrap32(e.clients[c.id].base) {
      OfflineAgrees(k, e, c, start, len, stray);
    } else {
      StaleFirstMask(k, e, c, start, len, stray);
    }
  }

  lemma StaleFirstMask(k: Setup, e: Enclave, c: Client, start: nat, len: nat, stray: nat -> Byte)
    requires Sound(k.crypto) && Injective(k.crypto) && Lockstep(e, c) && len % HASH_SIZE == 0 && len > 0
    requires e.clients[c.id].offline == 1 && e.clients[c.id].maskOffset == 0
    requires e.table == Stream(k, c.nonce, start, TABLE_SIZE / 16)
    requires 16 * e.clients[c.id].current + 2 * len < TABLE_SIZE && Wrap32(start) != Wrap32(e.clients[c.id].base)
    ensures FirstMask(k, e.table, e.clients[c.id], stray, len) != Online(k, c.nonce, c.counter, len)[..len]
  {
    hide Stream, Sound, Online, FromTable, Wrap32, Injective;
    var info := e.clients[c.id];
    var n := len / 32 * 2;
    assert BLOCK * n == len && BLOCK * 0 == 0 && start + info.current + 0 == start + info.current;
    assert UsesTableFirst(info, len) by { FirstGuard(info, len); }
    FilledRun(k, e, c, start, stray, n);
    OnlineHalves(k, e, c, info.base, len);
    CancelWrap(start, info.base, info.current);
    StreamsDiffer(k, c.nonce, start + info.current, info.base + info.current, n);
  }

  lemma FirstGuard(info: ClientInfo, len: nat)
    requires 16 * info.current + 2 * len < TABLE_SIZE && len % HASH_SIZE == 0 && info.offline == 1
    ensures UsesTableFirst(info, len)
  {
  }

  /** The table read at the client's place, whatever the client's base count is now. */
  lemma FilledRun(k: Setup, e: Enclave, c: Client, start: nat, stray: nat -> Byte, n: nat)
    requires Sound(k.crypto) && Lockstep(e, c) && e.clients[c.id].maskOffset == 0
    requires e.table == Stream(k, c.nonce, start, TABLE_SIZE / 16)
    requires BLOCK * (e.clients[c.id].current + n) <= TABLE_SIZE
    ensures FromTable(e.clients[c.id], e.table, stray, 0, BLOCK * n) ==
          Stream(k, c.nonce, start + e.clients[c.id].current, n)
  {
    var info := e.clients[c.id];
    var filled := e.(clients := e.clients[c.id := info.(base := start)]);
    assert Fresh(k, filled, c.id, start);
    hide Stream, Sound, Wrap32;
    TableRun(k, filled, c.id, start, stray, 0, n);
    assert BLOCK * 0 == 0 && start + info.current + 0 == start + info.current;
    assert FromTable(info, e.table, stray, 0, BLOCK * n) ==
        FromTable(info.(base := start), e.table, stray, 0, BLOCK * n);
  }

  lemma CancelWrap(x: nat, y: nat, d: nat)
    requires Wrap32(x) != Wrap32(y)
    ensures Wrap32(x + d) != Wrap32(y + d)
  {
    WrapAdd(x + d, -(d as int));
    WrapAdd(y + d, -(d as int));
  }

  // ---------------------------------------------------------------------------
  // When the two guards are right
  // ---------------------------------------------------------------------------

  /** The number of counts after which a 32-bit sum of their bytes comes round. */
  const SPAN: nat := 0x1000_0000

  /** The block at which such a sum lands. */
  function Place(d: nat): nat {
    d % SPAN
  }

  /** The blocks of each mask of a batch. */
  lemma Blocks(len: nat)
    requires len % HASH_SIZE == 0
    ensures var n := len / 32 * 2; BLOCK * n == len && n == len / 16 && (len > 0 ==> n > 0)
  {
  }

  lemma PlaceOf(d: nat)
    ensures Wrap32(BLOCK * d) == BLOCK * Place(d)
  {
  }

  /** The second use lands in the table after the client's counter itself has come round, and stays inside it. */
  predicate ComesRound(info: ClientInfo, len: nat) {
    WORD32 <= info.current + len / 16 && 16 * (info.current + len / 16 - WORD32) + len <= TABLE_SIZE
  }

  /** What a caller can check before a batch: its masks are all in the table, or neither use takes the table, or only
      the second one does and comes round. */
  predicate BatchFits(info: ClientInfo, len: nat) {
    || len == 0
    || 16 * info.current + 2 * len <= TABLE_SIZE
    || (!UsesTableFirst(info, len) && (!UsesTableSecond(info, len) || ComesRound(info, len)))
  }

  /** A batch under 32-bit sums gets the generated masks whatever lies behind the table if and only if it fits. */
  lemma GuardsAgreeExactly(k: Setup, e: Enclave, c: Client, start: nat, len: nat)
    requires Sound(k.crypto) && Injective(k.crypto) && Lockstep(e, c) && Fresh(k, e, c.id, start)
    requires e.clients[c.id].current < WORD32 && len < 0x8000_0000 && len % HASH_SIZE == 0
    ensures (forall stray: nat -> Byte :: MasksAgree(k, e, c, len, stray)) <==> BatchFits(e.clients[c.id], len)
  {
    hide MasksAgree, BatchFits, Sound, Injective, Lockstep, Fresh;
    LockstepNonce(e, c);
    if BatchFits(e.clients[c.id], len) {
      forall stray: nat -> Byte
        ensures MasksAgree(k, e, c, len, stray)
      {
        FittingAgrees(k, e, c, start, len, stray);
      }
    } else {
      var stray := UnfitDisagrees(k, e, c, start, len);
      assert !MasksAgree(k, e, c, len, stray);
    }
  }

  lemma FittingAgrees(k: Setup, e: Enclave, c: Client, start: nat, len: nat, stray: nat -> Byte)
    requires Sound(k.crypto) && Lockstep(e, c) && Fresh(k, e, c.id, start) && len % HASH_SIZE == 0
    requires e.clients[c.id].current < WORD32 && len < 0x8000_0000 && BatchFits(e.clients[c.id], len)
    ensures MasksAgree(k, e, c, len, stray)
  {
    var info := e.clients[c.id];
    hide UsesTableFirst, UsesTableSecond, ComesRound, Stream, FirstMask, SecondMask, Online, Sound, Fresh, Wrap32,
        Lockstep;
    if len == 0 {
    } else if 16 * info.current + 2 * len <= TABLE_SIZE {
      OfflineAgrees(k, e, c, start, len, stray);
    } else if UsesTableSecond(info, len) {
      RoundAgrees(k, e, c, start, len, stray);
    } else {
      OnlineAgrees(k, e, c, len, stray);
    }
  }

  lemma RoundAgrees(k: Setup, e: Enclave, c: Client, start: nat, len: nat, stray: nat -> Byte)
    requires Sound(k.crypto) && Lockstep(e, c) && Fresh(k, e, c.id, start) && len % HASH_SIZE == 0
    requires e.clients[c.id].current < WORD32 && len < 0x8000_0000
    requires var info := e.clients[c.id];
      !UsesTableFirst(info, len) && UsesTableSecond(info, len) && ComesRound(info, len)
    ensures MasksAgree(k, e, c, len, stray)
  {
    hide *;
    LockstepNonce(e, c);
    var info := e.clients[c.id];
    var n := len / 32 * 2;
    Blocks(len);
    var at := RoundPlace(info, start, n, len);
    TableRunAt(k, e, c.id, start, stray, n, n, at);
    FreshBase(k, e, c.id, start);
    OnlineHalves(k, e, c, start, len);
    StreamWraps(k, c.nonce, start + at, start + info.current + n, n);
    RoundMasks(k, e, c, len, stray);
  }

  /** Where the table is read when the counter has come round. */
  lemma RoundPlace(info: ClientInfo, start: nat, n: nat, len: nat) returns (at: nat)
    requires BLOCK * n == len && n == len / 16 && info.current < WORD32 && len < 0x8000_0000 && ComesRound(info, len)
    ensures Wrap32(BLOCK * (info.current + n)) == BLOCK * at && BLOCK * (at + n) <= TABLE_SIZE
    ensures Wrap32(start + at) == Wrap32(start + info.current + n)
  {
    at := info.current + n - WORD32;
    PlaceOf(info.current + n);
    assert start + info.current + n == start + at + WORD32;
    WrapAdd(WORD32, start + at);
  }

  lemma RoundMasks(k: Setup, e: Enclave, c: Client, len: nat, stray: nat -> Byte)
    requires Sound(k.crypto) && c.id in e.clients && len % HASH_SIZE == 0
    requires !UsesTableFirst(e.clients[c.id], len) && UsesTableSecond(e.clients[c.id], len)
    requires var info, n, m := e.clients[c.id], len / 32 * 2, Online(k, c.nonce, c.counter, len);
      && Stream(k, info.nonce, info.base + info.current, len / 32 * 4) == m
      && FromTable(info, e.table, stray, BLOCK * n, BLOCK * n) == m[len..]
    ensures MasksAgree(k, e, c, len, stray)
  {
    Blocks(len);
    hide Stream, Wrap32, Sound, UsesTableFirst, UsesTableSecond, Online, FromTable, Unwritten;
  }

  /** Memory that makes one byte of a mask wrong, when it is taken from beyond the table. */
  lemma StrayByte(info: ClientInfo, table: seq<Byte>, skip: nat, len: nat, i: nat, m: Byte) returns (stray: nat -> Byte)
    requires i < len && |table| <= Wrap32(info.maskOffset + info.current * 16 + skip + i)
    ensures FromTable(info, table, stray, skip, len)[i] != m
  {
    stray := _ => if m == 0 then 1 else 0;
    hide Wrap32;
    var at := Wrap32(info.maskOffset + info.current * 16 + skip + i);
    assert TableByte(table, stray, at) == stray(at);
  }

  lemma FirstStrays(k: Setup, e: Enclave, c: Client, len: nat, i: nat) returns (stray: nat -> Byte)
    requires Sound(k.crypto) && c.id in e.clients && len % HASH_SIZE == 0 && i < len
          && UsesTableFirst(e.clients[c.id], len)
    requires var info := e.clients[c.id]; |e.table| <= Wrap32(info.maskOffset + info.current * 16 + 0 + i)
    ensures !MasksAgree(k, e, c, len, stray)
  {
    hide Stream, Online, Wrap32, FromTable, UsesTableFirst, UsesTableSecond, Sound;
    var m := Online(k, c.nonce, c.counter, len)[..len][i];
    stray := StrayByte(e.clients[c.id], e.table, 0, len, i, m);
    assert FirstMask(k, e.table, e.clients[c.id], stray, len)[i] != m;
  }

  lemma SecondStrays(k: Setup, e: Enclave, c: Client, len: nat, i: nat) returns (stray: nat -> Byte)
    requires Sound(k.crypto) && c.id in e.clients && len % HASH_SIZE == 0 && i < len
          && UsesTableSecond(e.clients[c.id], len)
    requires var info := e.clients[c.id]; |e.table| <= Wrap32(info.maskOffset + info.current * 16 + len + i)
    ensures !MasksAgree(k, e, c, len, stray)
  {
    hide Stream, Online, Wrap32, FromTable, UsesTableFirst, UsesTableSecond, Sound;
    var m := Online(k, c.nonce, c.counter, len)[len..][i];
    stray := StrayByte(e.clients[c.id], e.table, len, len, i, m);
    assert SecondMask(k, e.table, e.clients[c.id], stray, len)[i] != m;
  }

  /** Between the guards the keys are masked with memory beyond the table. */
  lemma StrayReadsMatter(k: Setup, e: Enclave, c: Client, len: nat) returns (stray: nat -> Byte)
    requires Sound(k.crypto) && c.id in e.clients && len % HASH_SIZE == 0 && |e.table| == TABLE_SIZE
    requires e.clients[c.id].offline == 1 && e.clients[c.id].maskOffset == 0
    requires 16 * e.clients[c.id].current + len < TABLE_SIZE < 16 * e.clients[c.id].current + 2 * len < WORD32
    ensures !MasksAgree(k, e, c, len, stray)
  {
    var info := e.clients[c.id];
    var i := TABLE_SIZE - 16 * info.current - len;
    assert Wrap32(info.maskOffset + info.current * 16 + len + i) == TABLE_SIZE;
    assert UsesTableSecond(info, len);
    hide Stream, Online, Wrap32, FromTable, UsesTableSecond, MasksAgree;
    stray := SecondStrays(k, e, c, len, i);
  }

  /** Bytes of a table reached after the sum has come round are those of another count. */
  lemma WrongBlock(k: Setup, e: Enclave, c: Client, start: nat, stray: nat -> Byte, skip: nat, n: nat)
    requires Sound(k.crypto) && Injective(k.crypto) && Lockstep(e, c) && Fresh(k, e, c.id, start) && n > 0
    requires var d := e.clients[c.id].current + skip; SPAN <= d < WORD32 && BLOCK * Place(d) < TABLE_SIZE
    ensures FromTable(e.clients[c.id], e.table, stray, BLOCK * skip, BLOCK * n)[..BLOCK] !=
            Stream(k, c.nonce, start + e.clients[c.id].current + skip, 1)
  {
    hide *;
    LockstepNonce(e, c);
    var info := e.clients[c.id];
    var d := info.current + skip;
    WrongCount(start, d);
    Sizes(0, n);
    TableRunAt(k, e, c.id, start, stray, skip, 1, Place(d));
    FromTablePrefix(info, e.table, stray, BLOCK * skip, BLOCK * n, BLOCK);
    StreamsDiffer(k, c.nonce, start + Place(d), start + d, 1);
    assert start + d == start + info.current + skip;
    assert BLOCK * 1 == BLOCK;
  }

  lemma WrongCount(start: nat, d: nat)
    requires SPAN <= d < WORD32 && BLOCK * Place(d) < TABLE_SIZE
    ensures Wrap32(start + Place(d)) != Wrap32(start + d)
    ensures Wrap32(BLOCK * d) == BLOCK * Place(d) && BLOCK * (Place(d) + 1) <= TABLE_SIZE
  {
    PlaceOf(d);
    assert Wrap32(d - Place(d)) != Wrap32(0);
    CancelWrap(d - Place(d), 0, start + Place(d));
  }

  lemma LockstepNonce(e: Enclave, c: Client)
    requires Lockstep(e, c)
    ensures c.id in e.clients && c.nonce == e.clients[c.id].nonce && |c.nonce| == NONCE_SIZE
  {
  }

  lemma FromTablePrefix(info: ClientInfo, table: seq<Byte>, stray: nat -> Byte, skip: nat, len: nat, m: nat)
    requires m <= len
    ensures FromTable(info, table, stray, skip, len)[..m] == FromTable(info, table, stray, skip, m)
  {
    hide Wrap32, TableByte;
  }

  /** The first block of each half of the generated masks. */
  lemma OnlineFirstBlocks(k: Setup, e: Enclave, c: Client, start: nat, len: nat)
    requires Sound(k.crypto) && Lockstep(e, c) && Wrap32(start) == Wrap32(e.clients[c.id].base) && len % HASH_SIZE == 0
          && len > 0
    ensures var n, at := len / 32 * 2, start + e.clients[c.id].current;
      && Online(k, c.nonce, c.counter, len)[..len][..BLOCK] == Stream(k, c.nonce, at, 1)
      && Online(k, c.nonce, c.counter, len)[len..][..BLOCK] == Stream(k, c.nonce, at + n, 1)
  {
    hide *;
    LockstepNonce(e, c);
    var n, at := len / 32 * 2, start + e.clients[c.id].current;
    Blocks(len);
    OnlineHalves(k, e, c, start, len);
    FirstOfMany(k, c.nonce, at, n);
    FirstOfMany(k, c.nonce, at + n, n);
  }

  lemma FirstOfMany(k: Setup, nonce: seq<Byte>, counter: nat, n: nat)
    requires Sound(k.crypto) && n > 0
    ensures BLOCK <= |Stream(k, nonce, counter, n)|
    ensures Stream(k, nonce, counter, n)[..BLOCK] == Stream(k, nonce, counter, 1)
  {
    FirstBlock(k, nonce, counter, n);
    FirstBlock(k, nonce, counter, 1);
    assert |Stream(k, nonce, counter, 1)| == BLOCK;
    hide Stream;
  }

  /** Masks taken from the table, read off it. */
  lemma TableMasks(k: Setup, e: Enclave, c: Client, len: nat, stray: nat -> Byte)
    requires Sound(k.crypto) && c.id in e.clients && len % HASH_SIZE == 0
    ensures var info, n, m := e.clients[c.id], len / 32 * 2, Online(k, c.nonce, c.counter, len);
      && (MasksAgree(k, e, c, len, stray) && UsesTableFirst(info, len) ==>
           FromTable(info, e.table, stray, BLOCK * 0, BLOCK * n) == m[..len])
      && (MasksAgree(k, e, c, len, stray) && UsesTableSecond(info, len) ==>
           FromTable(info, e.table, stray, BLOCK * n, BLOCK * n) == m[len..])
  {
    assert BLOCK * (len / 32 * 2) == len && BLOCK * 0 == 0;
    hide Stream, Wrap32, Sound, UsesTableFirst, UsesTableSecond, Online, FromTable;
  }

  /** A first use past the first 2^28 counts of a session never gets the right masks from the table. */
  lemma FirstComesRound(k: Setup, e: Enclave, c: Client, start: nat, len: nat, stray: nat -> Byte)
    requires Sound(k.crypto) && Injective(k.crypto) && Lockstep(e, c) && Fresh(k, e, c.id, start)
    requires len % HASH_SIZE == 0 && len > 0 && UsesTableFirst(e.clients[c.id], len)
    requires var d := e.clients[c.id].current; SPAN <= d < WORD32 && BLOCK * Place(d) < TABLE_SIZE
    ensures !MasksAgree(k, e, c, len, stray)
  {
    hide *;
    LockstepNonce(e, c);
    var n := len / 32 * 2;
    Blocks(len);
    FreshBase(k, e, c.id, start);
    WrongBlock(k, e, c, start, stray, 0, n);
    OnlineFirstBlocks(k, e, c, start, len);
    TableMasks(k, e, c, len, stray);
    assert start + e.clients[c.id].current + 0 == start + e.clients[c.id].current;
  }

  /** Nor does a second use whose sum has come round, unless the count has come round too. */
  lemma SecondComesRound(k: Setup, e: Enclave, c: Client, start: nat, len: nat, stray: nat -> Byte)
    requires Sound(k.crypto) && Injective(k.crypto) && Lockstep(e, c) && Fresh(k, e, c.id, start)
    requires len % HASH_SIZE == 0 && len > 0 && UsesTableSecond(e.clients[c.id], len)
    requires var d := e.clients[c.id].current + len / 16; SPAN <= d < WORD32 && BLOCK * Place(d) < TABLE_SIZE
    ensures !MasksAgree(k, e, c, len, stray)
  {
    hide *;
    LockstepNonce(e, c);
    var n := len / 32 * 2;
    Blocks(len);
    FreshBase(k, e, c.id, start);
    WrongBlock(k, e, c, start, stray, n, n);
    OnlineFirstBlocks(k, e, c, start, len);
    TableMasks(k, e, c, len, stray);
  }

  lemma UnfitDisagrees(k: Setup, e: Enclave, c: Client, start: nat, len: nat) returns (stray: nat -> Byte)
    requires Sound(k.crypto) && Injective(k.crypto) && Lockstep(e, c) && Fresh(k, e, c.id, start)
    requires e.clients[c.id].current < WORD32 && len < 0x8000_0000 && len % HASH_SIZE == 0
    requires !BatchFits(e.clients[c.id], len)
    ensures !MasksAgree(k, e, c, len, stray)
  {
    hide MasksAgree, Sound, Injective, Lockstep, Fresh;
    LockstepNonce(e, c);
    if UsesTableFirst(e.clients[c.id], len) {
      stray := UnfitFirst(k, e, c, start, len);
    } else {
      stray := UnfitSecond(k, e, c, start, len);
    }
  }

  lemma FreshTable(k: Setup, e: Enclave, id: ClientId, start: nat)
    requires Sound(k.crypto) && Fresh(k, e, id, start)
    ensures id in e.clients && e.clients[id].maskOffset == 0 && |e.table| == TABLE_SIZE
  {
  }

  lemma UnfitFirst(k: Setup, e: Enclave, c: Client, start: nat, len: nat) returns (stray: nat -> Byte)
    requires Sound(k.crypto) && Injective(k.crypto) && Lockstep(e, c) && Fresh(k, e, c.id, start)
    requires e.clients[c.id].current < WORD32 && len < 0x8000_0000 && len % HASH_SIZE == 0 && len > 0
    requires UsesTableFirst(e.clients[c.id], len) && 16 * e.clients[c.id].current + 2 * len > TABLE_SIZE
    ensures !MasksAgree(k, e, c, len, stray)
  {
    hide MasksAgree, Sound, Injective, Lockstep, Fresh;
    LockstepNonce(e, c);
    var info := e.clients[c.id];
    FreshTable(k, e, c.id, start);
    PlaceOf(info.current);
    if SPAN <= info.current && BLOCK * Place(info.current) < TABLE_SIZE {
      stray := _ => 0;
      FirstComesRound(k, e, c, start, len, stray);
    } else if TABLE_SIZE <= BLOCK * Place(info.current) {
      stray := FirstStrays(k, e, c, len, 0);
    } else {
      assert 16 * info.current + len > TABLE_SIZE;
      var i := TABLE_SIZE - 16 * info.current;
      assert Wrap32(info.maskOffset + info.current * 16 + 0 + i) == TABLE_SIZE;
      stray := FirstStrays(k, e, c, len, i);
    }
  }

  lemma SecondPlace(info: ClientInfo, len: nat)
    requires UsesTableSecond(info, len) && len % HASH_SIZE == 0
    ensures BLOCK * Place(info.current + len / 16) < TABLE_SIZE
  {
    hide Wrap32, Place;
    Blocks(len);
    PlaceOf(info.current + len / 16);
    WrapAdd(info.current * 16, len);
    assert BLOCK * (info.current + len / 16) == info.current * 16 + len;
  }

  lemma PlaceNear(d: nat)
    ensures d < SPAN ==> Place(d) == d
    ensures WORD32 <= d < WORD32 + SPAN ==> Place(d) == d - WORD32
  {
    if WORD32 <= d < WORD32 + SPAN {
      ModUnique(d, SPAN, 16, d - WORD32);
    }
  }

  /** A second use that begins inside the table, at the right count, but does not end there. */
  lemma SecondGap(info: ClientInfo, len: nat) returns (i: nat)
    requires info.current < WORD32 && len < 0x8000_0000 && len % HASH_SIZE == 0 && !ComesRound(info, len)
    requires UsesTableSecond(info, len) && 16 * info.current + 2 * len > TABLE_SIZE
    requires !(SPAN <= info.current + len / 16 < WORD32)
    ensures i < len && Wrap32(info.current * 16 + len + i) == TABLE_SIZE
  {
    hide Wrap32, Place, UsesTableSecond;
    Blocks(len);
    var d := info.current + len / 16;
    var at := Place(d);
    SecondPlace(info, len);
    PlaceOf(d);
    PlaceNear(d);
    i := TABLE_SIZE - BLOCK * at;
    WrapAdd(BLOCK * d, i);
    assert BLOCK * d == info.current * 16 + len;
    InWord(TABLE_SIZE);
  }

  lemma InWord(x: nat)
    ensures x < WORD32 ==> Wrap32(x) == x
  {
  }

  lemma UnfitSecond(k: Setup, e: Enclave, c: Client, start: nat, len: nat) returns (stray: nat -> Byte)
    requires Sound(k.crypto) && Injective(k.crypto) && Lockstep(e, c) && Fresh(k, e, c.id, start)
    requires e.clients[c.id].current < WORD32 && len < 0x8000_0000 && len % HASH_SIZE == 0 && len > 0
    requires UsesTableSecond(e.clients[c.id], len) && !ComesRound(e.clients[c.id], len)
    requires !UsesTableFirst(e.clients[c.id], len) && 16 * e.clients[c.id].current + 2 * len > TABLE_SIZE
    ensures !MasksAgree(k, e, c, len, stray)
  {
    hide MasksAgree, Sound, Injective, Lockstep, Fresh, UsesTableFirst, UsesTableSecond, ComesRound, Wrap32, Place;
    LockstepNonce(e, c);
    var info := e.clients[c.id];
    FreshTable(k, e, c.id, start);
    SecondPlace(info, len);
    if SPAN <= info.current + len / 16 < WORD32 {
      stray := _ => 0;
      SecondComesRound(k, e, c, start, len, stray);
    } else {
      var i := SecondGap(info, len);
      assert info.maskOffset + info.current * 16 + len + i == info.current * 16 + len + i;
      stray := SecondStrays(k, e, c, len, i);
    }
  }

  lemma FirstAgain(info: ClientInfo)
    requires info.offline == 1 && info.current == 0x1000_0000
    ensures UsesTableFirst(info, 32) && BLOCK * Place(info.current) < TABLE_SIZE
  {
  }

  /** One batch of a single chunk, sent after 2^28 counts of a session, takes the table from its start again: it is
      answered with wrong masks, whatever memory holds. */
  lemma TableUsedAgain(k: Setup, e: Enclave, c: Client, start: nat, stray: nat -> Byte)
    requires Sound(k.crypto) && Injective(k.crypto) && Lockstep(e, c) && Fresh(k, e, c.id, start)
    requires e.clients[c.id].offline == 1 && e.clients[c.id].current == 0x1000_0000
    ensures !MasksAgree(k, e, c, 32, stray)
  {
    hide MasksAgree, Sound, Injective, Lockstep, Fresh;
    LockstepNonce(e, c);
    FirstAgain(e.clients[c.id]);
    hide UsesTableFirst, Place;
    FirstComesRound(k, e, c, start, 32, stray);
  }
}
