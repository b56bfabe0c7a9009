/** The first program format: a fixed header, then buffers, constants and instruction lists. */
module ProgramFormat {
  import opened Arith
  import opened Wire

  const MAGIC := 0x30504D56
  const VERSION := 0

  datatype Buffer = Buffer(offset: nat, size: nat, nElems: nat, dtype: nat, kind: nat, index: nat)
  datatype Instr = Instr(opcode: nat, out: nat, a: nat, b: nat, nElems: nat, aux: nat, flags: nat)
  datatype Const = Const(buf: nat, data: seq<byte>)
  datatype VMProgram = VMProgram(arenaSize: nat, buffers: seq<Buffer>, consts: seq<Const>, lists: seq<seq<Instr>>)

  datatype Error = BadMagic | BadVersion | Truncated | TrailingBytes
  datatype Result<+T> = Ok(value: T) | Err(error: Error)

  const HEADER: seq<nat> := [4, 4, 8, 4, 4, 4, 4]
  const BUFFER_ENTRY: seq<nat> := [8, 8, 4, 1, 1, 2]
  const CONST_HEADER: seq<nat> := [4, 4]
  const INSTR: seq<nat> := [2, 2, 4, 4, 4, 4, 4]
  const COUNT: seq<nat> := [4]

  // ----- buffers --------------------------------------------------------------------------------

  function BufferFields(b: Buffer): (f: seq<nat>)
    ensures |f| == |BUFFER_ENTRY|
  {
    [b.offset, b.size, b.nElems, b.dtype, b.kind, b.index]
  }

  predicate GoodBuffer(b: Buffer) { FitAll(BufferFields(b), BUFFER_ENTRY) }

  function WriteBuffer(b: Buffer): seq<byte> { Pack(BufferFields(b), BUFFER_ENTRY) }

  function ReadBuffer(s: seq<byte>): Option<(Buffer, seq<byte>)> {
    match ReadRecord(s, BUFFER_ENTRY)
    case None => None
    case Some((f, rest)) => Some((Buffer(f[0], f[1], f[2], f[3], f[4], f[5]), rest))
  }

  lemma BuffersInvert()
    ensures Inverts(WriteBuffer, ReadBuffer, GoodBuffer)
  {
    hide Pack, Unpack, Size, FitAll;
    forall b, rest | GoodBuffer(b)
      ensures ReadBuffer(WriteBuffer(b) + rest) == Some((b, rest))
    {
      ReadPacked(BufferFields(b), BUFFER_ENTRY, rest);
    }
    forall s | ReadBuffer(s).Some?
      ensures GoodBuffer(ReadBuffer(s).value.0) && s == WriteBuffer(ReadBuffer(s).value.0) + ReadBuffer(s).value.1
    {
      ReadMeans(s, BUFFER_ENTRY);
      var f := ReadRecord(s, BUFFER_ENTRY).value.0;
      assert BufferFields(ReadBuffer(s).value.0) == f;
    }
  }

  // ----- constants ------------------------------------------------------------------------------

  predicate GoodConst(c: Const) { FitAll([c.buf, |c.data|], CONST_HEADER) }

  function WriteConst(c: Const): seq<byte> { Pack([c.buf, |c.data|], CONST_HEADER) + c.data }

  function ReadConst(s: seq<byte>): Option<(Const, seq<byte>)> {
    match ReadRecord(s, CONST_HEADER)
    case None => None
    case Some((f, rest)) => if f[1] > |rest| then None else Some((Const(f[0], rest[..f[1]]), rest[f[1]..]))
  }

  lemma ConstsInvert()
    ensures Inverts(WriteConst, ReadConst, GoodConst)
  {
    hide Pack, Unpack, Size, FitAll;
    forall c, rest | GoodConst(c)
      ensures ReadConst(WriteConst(c) + rest) == Some((c, rest))
    {
      assert WriteConst(c) + rest == Pack([c.buf, |c.data|], CONST_HEADER) + (c.data + rest);
      ReadPacked([c.buf, |c.data|], CONST_HEADER, c.data + rest);
      assert (c.data + rest)[..|c.data|] == c.data && (c.data + rest)[|c.data|..] == rest;
    }
    forall s | ReadConst(s).Some?
      ensures GoodConst(ReadConst(s).value.0) && s == WriteConst(ReadConst(s).value.0) + ReadConst(s).value.1
    {
      ReadMeans(s, CONST_HEADER);
      var (f, rest) := ReadRecord(s, CONST_HEADER).value;
      var c := ReadConst(s).value.0;
      assert f == [c.buf, |c.data|] && rest == rest[..f[1]] + rest[f[1]..];
      assert Pack(f, CONST_HEADER) + (rest[..f[1]] + rest[f[1]..])
          == Pack(f, CONST_HEADER) + rest[..f[1]] + rest[f[1]..];
    }
  }

  // ----- instructions and lists -------------------------------------------------------------------

  function InstrFields(i: Instr): (f: seq<nat>)
    ensures |f| == |INSTR|
  {
    [i.opcode, i.flags, i.out, i.a, i.b, i.nElems, i.aux]
  }

  predicate GoodInstr(i: Instr) { FitAll(InstrFields(i), INSTR) }

  function WriteInstr(i: Instr): seq<byte> { Pack(InstrFields(i), INSTR) }

  function ReadInstr(s: seq<byte>): Option<(Instr, seq<byte>)> {
    match ReadRecord(s, INSTR)
    case None => None
    case Some((f, rest)) => Some((Instr(f[0], f[2], f[3], f[4], f[5], f[6], f[1]), rest))
  }

  lemma InstrsInvert()
    ensures Inverts(WriteInstr, ReadInstr, GoodInstr)
  {
    hide Pack, Unpack, Size, FitAll;
    forall i, rest | GoodInstr(i)
      ensures ReadInstr(WriteInstr(i) + rest) == Some((i, rest))
    {
      ReadPacked(InstrFields(i), INSTR, rest);
    }
    forall s | ReadInstr(s).Some?
      ensures GoodInstr(ReadInstr(s).value.0) && s == WriteInstr(ReadInstr(s).value.0) + ReadInstr(s).value.1
    {
      ReadMeans(s, INSTR);
      var f := ReadRecord(s, INSTR).value.0;
      assert InstrFields(ReadInstr(s).value.0) == f;
    }
  }

  predicate GoodList(l: seq<Instr>) { FitAll([|l|], COUNT) && AllGood(l, GoodInstr) }

  function WriteList(l: seq<Instr>): seq<byte> { Pack([|l|], COUNT) + WriteAll(l, WriteInstr) }

  function ReadList(s: seq<byte>): Option<(seq<Instr>, seq<byte>)> {
    match ReadRecord(s, COUNT)
    case None => None
    case Some((f, rest)) => ReadAll(rest, f[0], ReadInstr)
  }

  lemma ListsInvert()
    ensures Inverts(WriteList, ReadList, GoodList)
  {
    hide Pack, Unpack, Size, FitAll, ReadAll, WriteAll, AllGood;
    InstrsInvert();
    forall l, rest | GoodList(l)
      ensures ReadList(WriteList(l) + rest) == Some((l, rest))
    {
      assert WriteList(l) + rest == Pack([|l|], COUNT) + (WriteAll(l, WriteInstr) + rest);
      ReadPacked([|l|], COUNT, WriteAll(l, WriteInstr) + rest);
      ReadWritten(l, WriteInstr, ReadInstr, GoodInstr, rest);
    }
    forall s | ReadList(s).Some?
      ensures GoodList(ReadList(s).value.0) && s == WriteList(ReadList(s).value.0) + ReadList(s).value.1
    {
      ReadMeans(s, COUNT);
      var (f, rest) := ReadRecord(s, COUNT).value;
      ReadAllMeans(rest, f[0], WriteInstr, ReadInstr, GoodInstr);
      var (l, end) := ReadList(s).value;
      assert f == [|l|];
      assert Pack(f, COUNT) + (WriteAll(l, WriteInstr) + end) == Pack(f, COUNT) + WriteAll(l, WriteInstr) + end;
    }
  }

  // ----- whole programs -----------------------------------------------------------------------------

  function HeaderFields(p: VMProgram, reserved: nat): (f: seq<nat>)
    ensures |f| == |HEADER|
  {
    [MAGIC, VERSION, p.arenaSize, |p.buffers|, |p.consts|, |p.lists|, reserved]
  }

  function Body(p: VMProgram): seq<byte> {
    WriteAll(p.buffers, WriteBuffer) + (WriteAll(p.consts, WriteConst) + WriteAll(p.lists, WriteList))
  }

  /** The file of a program; the last header word is not interpreted. */
  function Image(p: VMProgram, reserved: nat): seq<byte> {
    Pack(HeaderFields(p, reserved), HEADER) + Body(p)
  }

  /** Every field fits its width. */
  predicate Fits(p: VMProgram, reserved: nat) {
    && FitAll(HeaderFields(p, reserved), HEADER)
    && AllGood(p.buffers, GoodBuffer) && AllGood(p.consts, GoodConst) && AllGood(p.lists, GoodList)
  }

  /** Writes a program, section by section. */
  method Serialize(p: VMProgram) returns (out: seq<byte>)
    ensures out == Image(p, 0)
  {
    hide Pack, WriteAll;
    out := Pack(HeaderFields(p, 0), HEADER);
    var section := WriteLoop(p.buffers, WriteBuffer);
    out := out + section;
    section := WriteLoop(p.consts, WriteConst);
    out := out + section;
    section := WriteLoop(p.lists, WriteList);
    out := out + section;
    var h, b, c, l := Pack(HeaderFields(p, 0), HEADER), WriteAll(p.buffers, WriteBuffer),
        WriteAll(p.consts, WriteConst), WriteAll(p.lists, WriteList);
    assert h + b + c + l == h + (b + (c + l));
  }

  /** The reader. */
  function ParseBody(arenaSize: nat, s: seq<byte>, nBuffers: nat, nConsts: nat, nLists: nat): Result<VMProgram> {
    match ReadAll(s, nBuffers, ReadBuffer)
    case None => Err(Truncated)
    case Some((buffers, s1)) =>
      match ReadAll(s1, nConsts, ReadConst)
      case None => Err(Truncated)
      case Some((consts, s2)) =>
        match ReadAll(s2, nLists, ReadList)
        case None => Err(Truncated)
        case Some((lists, s3)) =>
          if s3 != [] then Err(TrailingBytes) else Ok(VMProgram(arenaSize, buffers, consts, lists))
  }

  function ParseImage(data: seq<byte>): Result<VMProgram> {
    match ReadRecord(data, HEADER)
    case None => Err(Truncated)
    case Some((h, s)) =>
      if h[0] != MAGIC then Err(BadMagic)
      else if h[1] != VERSION then Err(BadVersion)
      else ParseBody(h[2], s, h[3], h[4], h[5])
  }

  method Parse(data: seq<byte>) returns (r: Result<VMProgram>)
    ensures r == ParseImage(data)
  {
    var header := ReadRecord(data, HEADER);
    if header.None? {
      return Err(Truncated);
    }
    var (h, s) := header.value;
    if h[0] != MAGIC {
      return Err(BadMagic);
    }
    if h[1] != VERSION {
      return Err(BadVersion);
    }
    var buffers := ReadLoop(s, h[3], ReadBuffer);
    if buffers.None? {
      return Err(Truncated);
    }
    var consts := ReadLoop(buffers.value.1, h[4], ReadConst);
    if consts.None? {
      return Err(Truncated);
    }
    var lists := ReadLoop(consts.value.1, h[5], ReadList);
    if lists.None? {
      return Err(Truncated);
    }
    if lists.value.1 != [] {
      return Err(TrailingBytes);
    }
    r := Ok(VMProgram(h[2], buffers.value.0, consts.value.0, lists.value.0));
  }

  lemma BodyRead(p: VMProgram, extra: seq<byte>)
    requires AllGood(p.buffers, GoodBuffer) && AllGood(p.consts, GoodConst) && AllGood(p.lists, GoodList)
    ensures ParseBody(p.arenaSize, Body(p) + extra, |p.buffers|, |p.consts|, |p.lists|)
         == if extra == [] then Ok(p) else Err(TrailingBytes)
  {
    BuffersInvert();
    ConstsInvert();
    ListsInvert();
    hide WriteAll, ReadAll, ReadsBack, ReadsOnly, AllGood;
    var b, c, l := WriteAll(p.buffers, WriteBuffer), WriteAll(p.consts, WriteConst), WriteAll(p.lists, WriteList);
    assert Body(p) + extra == b + (c + (l + extra));
    ReadWritten(p.buffers, WriteBuffer, ReadBuffer, GoodBuffer, c + (l + extra));
    ReadWritten(p.consts, WriteConst, ReadConst, GoodConst, l + extra);
    ReadWritten(p.lists, WriteList, ReadList, GoodList, extra);
  }

  lemma BodyMeans(arenaSize: nat, s: seq<byte>, nBuffers: nat, nConsts: nat, nLists: nat)
    requires ParseBody(arenaSize, s, nBuffers, nConsts, nLists).Ok?
    ensures var p := ParseBody(arenaSize, s, nBuffers, nConsts, nLists).value;
            && p.arenaSize == arenaSize && |p.buffers| == nBuffers && |p.consts| == nConsts && |p.lists| == nLists
            && AllGood(p.buffers, GoodBuffer) && AllGood(p.consts, GoodConst) && AllGood(p.lists, GoodList)
            && s == Body(p)
  {
    BuffersInvert();
    ConstsInvert();
    ListsInvert();
    hide WriteAll, ReadAll, ReadsBack, ReadsOnly, AllGood;
    ReadAllMeans(s, nBuffers, WriteBuffer, ReadBuffer, GoodBuffer);
    var (buffers, s1) := ReadAll(s, nBuffers, ReadBuffer).value;
    ReadAllMeans(s1, nConsts, WriteConst, ReadConst, GoodConst);
    var (consts, s2) := ReadAll(s1, nConsts, ReadConst).value;
    ReadAllMeans(s2, nLists, WriteList, ReadList, GoodList);
    var (lists, s3) := ReadAll(s2, nLists, ReadList).value;
    assert WriteAll(lists, WriteList) + s3 == WriteAll(lists, WriteList);
  }

  /** Reading back what was written gives the program, and anything behind it is an error. */
  lemma RoundTrip(p: VMProgram, reserved: nat, extra: seq<byte>)
    requires Fits(p, reserved)
    ensures ParseImage(Image(p, reserved) + extra) == if extra == [] then Ok(p) else Err(TrailingBytes)
  {
    hide Pack, Unpack, Size, WriteAll, ReadAll, ParseBody, Body, AllGood;
    assert Image(p, reserved) + extra == Pack(HeaderFields(p, reserved), HEADER) + (Body(p) + extra);
    ReadPacked(HeaderFields(p, reserved), HEADER, Body(p) + extra);
    BodyRead(p, extra);
  }

  /** The reader accepts a file exactly when it is the image of a program whose fields fit. */
  lemma ParseExact(data: seq<byte>, p: VMProgram)
    ensures ParseImage(data) == Ok(p) <==> exists reserved: nat :: Fits(p, reserved) && data == Image(p, reserved)
  {
    hide Fits, Image, ParseImage;
    if reserved: nat :| Fits(p, reserved) && data == Image(p, reserved) {
      RoundTrip(p, reserved, []);
      assert Image(p, reserved) + [] == Image(p, reserved);
    }
    if ParseImage(data) == Ok(p) {
      var reserved := ParsedIsImage(data, p);
    }
  }

  lemma ParsedIsImage(data: seq<byte>, p: VMProgram) returns (reserved: nat)
    requires ParseImage(data) == Ok(p)
    ensures Fits(p, reserved) && data == Image(p, reserved)
  {
    hide Pack, Unpack, Size, WriteAll, ReadAll, ParseBody, Body, AllGood, FitAll;
    ReadMeans(data, HEADER);
    var (h, s) := ReadRecord(data, HEADER).value;
    BodyMeans(h[2], s, h[3], h[4], h[5]);
    reserved := h[6];
    assert h == HeaderFields(p, reserved);
  }
}
