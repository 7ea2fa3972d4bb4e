/**
 A conversation-bound surface: the snapshot, its version and finalised text streams, and the
 atomic application of one command under optimistic concurrency.
 */
module Surface {
  import opened Basics
  import opened Utf8

  type Id = string

  const MAX_BLOCKS: nat := 64
  const MAX_FINAL: nat := 64
  const MAX_BYTES: nat := 16384
  const MAX_DELTA: nat := 4096
  const MAX_OPS: nat := 64
  const MAX_VERSION: nat := 0x1F_FFFF_FFFF_FFFF

  /** What no reply touches: its identity, its canonical size, and whether its own checks pass. */
  datatype Opaque = Opaque(tag: nat, bytes: nat, sound: bool)
  datatype Text = Text(nested: bool, text: seq<Byte>)
  datatype Block = Block(id: Id, text: Option<Text>, rest: Opaque)
  datatype Content = Content(surface: Id, blocks: seq<Block>, fallback: seq<Byte>, rest: Opaque)

  /** The snapshot hash, an injective function of the content. */
  datatype Hash = Hash(content: Content)

  datatype Op =
    | SetFallback(fallback: seq<Byte>)
    | SetRest(rest: Opaque)
    | Replace(block: Block)
    | Insert(index: nat, block: Block)
    | Remove(id: Id)

  datatype Command =
    | Create(content: Content)
    | Append(surface: Id, id: Id, delta: seq<Byte>, last: bool)
    | Patch(surface: Id, base: Hash, ops: seq<Op>, result: Hash)
    | Close(surface: Id)

  datatype State = State(content: Option<Content>, conversation: Option<Id>, version: nat, closed: bool,
                         finals: map<Id, Text>)

  datatype Reject =
    | Closed | VersionExhausted | WrongVersion | InvalidIdentifier | NotCreated | AlreadyCreated | WrongSurface
    | Conflict | BlockClosed | UnknownBlock | DuplicateBlock | InvalidInsertPosition | BlockNotStreamable
    | LimitExceeded | InvalidContent | ResultHashMismatch

  const NEW := State(None, None, 0, false, map[])

  // Blocks

  function Position(blocks: seq<Block>, id: Id): (r: nat)
    ensures r <= |blocks| && (r < |blocks| ==> blocks[r].id == id)
    ensures forall j :: 0 <= j < r ==> blocks[j].id != id
  {
    if blocks == [] then 0 else if blocks[0].id == id then 0 else 1 + Position(blocks[1..], id)
  }

  predicate DistinctIds(blocks: seq<Block>) {
    forall i, j :: 0 <= i < j < |blocks| ==> blocks[i].id != blocks[j].id
  }

  function TextOf(c: Content, id: Id): (r: Option<seq<Byte>>) {
    var p := Position(c.blocks, id);
    if p < |c.blocks| && c.blocks[p].text.Some? then Some(c.blocks[p].text.value.text) else None
  }

  function WithText(c: Content, id: Id, text: seq<Byte>): (r: Content) {
    var p := Position(c.blocks, id);
    if p < |c.blocks| && c.blocks[p].text.Some?
    then c.(blocks := c.blocks[p := c.blocks[p].(text := Some(c.blocks[p].text.value.(text := text)))])
    else c
  }

  // The checks of a complete snapshot

  /** The size of a byte inside a canonical JSON string. */
  function Width(b: Byte): (r: nat) {
    if b == 0x22 || b == 0x5C || b in {0x08, 0x09, 0x0A, 0x0C, 0x0D} then 2 else if b < 0x20 then 6 else 1
  }

  function Escaped(text: seq<Byte>): (r: nat) {
    if text == [] then 0 else Width(text[0]) + Escaped(text[1..])
  }

  function BlocksSize(blocks: seq<Block>): (r: nat) {
    if blocks == [] then 0 else
      blocks[0].rest.bytes + (if blocks[0].text.Some? then Escaped(blocks[0].text.value.text) else 0)
        + BlocksSize(blocks[1..])
  }

  function Size(c: Content): (r: nat) {
    c.rest.bytes + Escaped(c.fallback) + BlocksSize(c.blocks)
  }

  predicate Blank(c: Scalar) {
    || 0x9 <= c <= 0xD || c == 0x20 || c == 0x85 || c == 0xA0 || c == 0x1680 || 0x2000 <= c <= 0x200A
    || c == 0x2028 || c == 0x2029 || c == 0x202F || c == 0x205F || c == 0x3000
  }

  predicate Unsafe(c: Scalar) {
    || (c < 0x20 && c != 0xA) || 0x7F <= c <= 0x9F
    || c == 0x61C || 0x200E <= c <= 0x200F || 0x202A <= c <= 0x202E || 0x2066 <= c <= 0x2069
  }

  predicate FallbackOk(text: seq<Byte>) {
    && Valid(text)
    && (exists c :: c in Decode(text).value && !Blank(c))
    && (forall c :: c in Decode(text).value ==> !Unsafe(c))
  }

  predicate BlockOk(b: Block) {
    b.id != "" && b.rest.sound && (b.text.Some? ==> Valid(b.text.value.text))
  }

  predicate Sound(c: Content) {
    && c.surface != ""
    && DistinctIds(c.blocks)
    && (forall b :: b in c.blocks ==> BlockOk(b))
    && c.rest.sound
    && FallbackOk(c.fallback)
  }

  predicate Accepted(c: Content) {
    |c.blocks| <= MAX_BLOCKS && Sound(c) && Size(c) <= MAX_BYTES
  }

  // Applying a command

  function ApplyOp(c: Content, op: Op): (r: Result<Content, Reject>) {
    match op
    case SetFallback(fallback) => Ok(c.(fallback := fallback))
    case SetRest(rest) => Ok(c.(rest := rest))
    case Replace(block) =>
      var p := Position(c.blocks, block.id);
      if p == |c.blocks| then Err(UnknownBlock) else Ok(c.(blocks := c.blocks[p := block]))
    case Insert(index, block) =>
      if Position(c.blocks, block.id) < |c.blocks| then Err(DuplicateBlock)
      else if index > |c.blocks| then Err(InvalidInsertPosition)
      else Ok(c.(blocks := c.blocks[..index] + [block] + c.blocks[index..]))
    case Remove(id) =>
      var p := Position(c.blocks, id);
      if p == |c.blocks| then Err(UnknownBlock) else Ok(c.(blocks := c.blocks[..p] + c.blocks[p + 1..]))
  }

  function ApplyOps(c: Content, ops: seq<Op>): (r: Result<Content, Reject>)
    decreases |ops|
  {
    if ops == [] then Ok(c) else
      match ApplyOp(c, ops[0])
      case Err(e) => Err(e)
      case Ok(d) => ApplyOps(d, ops[1..])
  }

  function AppendText(c: Content, finals: map<Id, Text>, id: Id, delta: seq<Byte>, last: bool)
    : (r: Result<(Content, map<Id, Text>), Reject>)
  {
    if id in finals then Err(BlockClosed)
    else if |delta| > MAX_DELTA then Err(LimitExceeded)
    else
      var p := Position(c.blocks, id);
      if p == |c.blocks| then Err(UnknownBlock)
      else if c.blocks[p].text == None then Err(BlockNotStreamable)
      else
        var t := c.blocks[p].text.value;
        if |t.text| + |delta| > MAX_BYTES then Err(LimitExceeded)
        else if last && |finals| >= MAX_FINAL then Err(LimitExceeded)
        else Ok((WithText(c, id, t.text + delta), if last then finals[id := t.(text := t.text + delta)] else finals))
  }

  /** The new content and finals, and the hash the command declares. */
  function Update(s: State, c: Content, command: Command): (r: Result<(State, Option<Hash>), Reject>) {
    match command
    case Create(_) => Err(AlreadyCreated)
    case Append(_, id, delta, last) =>
      (match AppendText(c, s.finals, id, delta, last)
       case Err(e) => Err(e)
       case Ok((d, finals)) => Ok((s.(content := Some(d), finals := finals), None)))
    case Patch(_, base, ops, result) =>
      if base != Hash(c) then Err(Conflict)
      else if |ops| > MAX_OPS then Err(LimitExceeded)
      else
        (match ApplyOps(c, ops)
         case Err(e) => Err(e)
         case Ok(d) => Ok((s.(content := Some(d)), Some(result))))
    case Close(_) => Ok((s.(closed := true), None))
  }

  predicate FinalsMatch(c: Content, finals: map<Id, Text>) {
    forall b :: b in c.blocks && b.id in finals ==> b.text == Some(finals[b.id])
  }

  function SurfaceOf(command: Command): (r: Id) {
    if command.Create? then command.content.surface else command.surface
  }

  /** The state after the checks every accepted command ends with. */
  function Sealed(next: State, declared: Option<Hash>, version: nat): (r: Result<State, Reject>)
    requires next.content.Some?
  {
    var c := next.content.value;
    if !FinalsMatch(c, next.finals) then Err(BlockClosed)
    else if !Accepted(c) then Err(if |c.blocks| <= MAX_BLOCKS && !Sound(c) then InvalidContent else LimitExceeded)
    else if declared.Some? && declared.value != Hash(c) then Err(ResultHashMismatch)
    else Ok(next.(version := version))
  }

  function Apply(s: State, conversation: Id, version: nat, command: Command): (r: Result<State, Reject>) {
    if s.closed then Err(Closed)
    else if s.version >= MAX_VERSION then Err(VersionExhausted)
    else if version != s.version + 1 then Err(WrongVersion)
    else if conversation == "" then Err(InvalidIdentifier)
    else
      match s.content
      case None =>
        if command.Create? then
          Sealed(s.(content := Some(command.content), conversation := Some(conversation)), None, version)
        else Err(NotCreated)
      case Some(c) =>
        if command.Create? then Err(AlreadyCreated)
        else if s.conversation != Some(conversation) || SurfaceOf(command) != c.surface then Err(WrongSurface)
        else
          match Update(s, c, command)
          case Err(e) => Err(e)
          case Ok((next, declared)) => Sealed(next, declared, version)
  }

  /** What holds of every state a sequence of commands can produce. */
  ghost predicate Consistent(s: State) {
    && |s.finals| <= MAX_FINAL && s.version <= MAX_VERSION
    && (match s.content
        case None => s == NEW
        case Some(c) => Accepted(c) && FinalsMatch(c, s.finals) && s.conversation.Some? && s.conversation.value != "")
  }

  lemma UpdateContent(s: State, c: Content, command: Command)
    requires Update(s, c, command).Ok? && s.content == Some(c) && |s.finals| <= MAX_FINAL
    ensures var next := Update(s, c, command).value.0;
            && next.content.Some? && next.conversation == s.conversation && |next.finals| <= MAX_FINAL
            && Keeps(s.finals, next.finals)
  {
  }

  /** Finished texts stay as they are. */
  predicate Keeps(before: map<Id, Text>, after: map<Id, Text>) {
    forall id :: id in before ==> id in after && after[id] == before[id]
  }

  lemma ApplyKeeps(s: State, conversation: Id, version: nat, command: Command)
    requires Consistent(s) && Apply(s, conversation, version, command).Ok?
    ensures Consistent(Apply(s, conversation, version, command).value)
    ensures Apply(s, conversation, version, command).value.version == s.version + 1
    ensures Apply(s, conversation, version, command).value.content.Some?
    ensures Keeps(s.finals, Apply(s, conversation, version, command).value.finals)
  {
    if s.content.Some? {
      UpdateContent(s, s.content.value, command);
    }
  }

  /** Applies the commands in order, each with the next version; stops at the first refusal. */
  function ApplyAll(s: State, conversation: Id, commands: seq<Command>): (r: Result<State, Reject>)
    decreases |commands|
  {
    if commands == [] then Ok(s) else
      var r := Apply(s, conversation, s.version + 1, commands[0]);
      if r.Ok? then ApplyAll(r.value, conversation, commands[1..]) else r
  }

  // Texts that grow

  lemma {:induction false} EscapedPrefix(a: seq<Byte>, b: seq<Byte>)
    requires a <= b
    ensures Escaped(a) <= Escaped(b) && |b| <= Escaped(b)
  {
    if b != [] {
      if a == [] {
        EscapedPrefix([], b[1..]);
      } else {
        assert a[1..] <= b[1..];
        EscapedPrefix(a[1..], b[1..]);
      }
    }
  }

  /** `a` is `b` with some texts cut short. */
  ghost predicate Shorter(a: seq<Block>, b: seq<Block>) {
    && |a| == |b|
    && forall i :: 0 <= i < |a| ==> ShorterBlock(a[i], b[i])
  }

  ghost predicate ShorterBlock(a: Block, b: Block) {
    a == b || (a.text.Some? && b.text.Some? && a == b.(text := a.text) && a.text.value.nested == b.text.value.nested
               && a.text.value.text <= b.text.value.text)
  }

  lemma {:induction false} ShorterSize(a: seq<Block>, b: seq<Block>)
    requires Shorter(a, b)
    ensures BlocksSize(a) <= BlocksSize(b)
  {
    if a != [] {
      assert ShorterBlock(a[0], b[0]);
      forall i | 0 <= i < |a| - 1 ensures ShorterBlock(a[1..][i], b[1..][i]) {
        assert ShorterBlock(a[i + 1], b[i + 1]);
      }
      ShorterSize(a[1..], b[1..]);
      if a[0] != b[0] {
        EscapedPrefix(a[0].text.value.text, b[0].text.value.text);
      }
    }
  }

  /** Cutting texts short keeps a snapshot acceptable, as long as they stay valid. */
  lemma ShorterAccepted(a: Content, b: Content)
    requires Accepted(b) && Shorter(a.blocks, b.blocks) && a == b.(blocks := a.blocks)
    requires forall x :: x in a.blocks && x.text.Some? ==> Valid(x.text.value.text)
    ensures Accepted(a)
  {
    ShorterSize(a.blocks, b.blocks);
    assert forall i :: 0 <= i < |a.blocks| ==> ShorterBlock(a.blocks[i], b.blocks[i]);
    forall x | x in a.blocks ensures BlockOk(x) {
      var i :| 0 <= i < |a.blocks| && a.blocks[i] == x;
      assert BlockOk(b.blocks[i]);
    }
  }

  lemma {:induction false} TextBounded(blocks: seq<Block>, i: nat)
    requires i < |blocks| && blocks[i].text.Some?
    ensures |blocks[i].text.value.text| <= BlocksSize(blocks)
  {
    if i == 0 {
      EscapedPrefix([], blocks[0].text.value.text);
    } else {
      TextBounded(blocks[1..], i - 1);
    }
  }
}
