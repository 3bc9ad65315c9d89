/** The bytes in which CTANGLE stores replacement texts, and how they are read back. */
module TangleTokens {
  import opened Wrappers

  const STRING: nat := 2           // delimits material that is copied without change
  const CONSTANT: nat := 3         // delimits a constant
  const NEWLINE: nat := 10
  const AT_SIGN: nat := 64
  const IDENT_LIMIT: nat := 10240  // 024000, the size of a range of two-byte codes
  const DEFS_FLAG: nat := 20479    // `output_defs_flag`, the last code of the second range
  const SECTION_BASE: nat := 20480 // 050000, where the third range starts

  /** What is read from a text: a character, a character of quoted material, an identifier,
      a section reference, the place for macro definitions, a section's number, or the
      line and file that the text comes from. */
  datatype Item =
    | Char(b: nat)
    | Raw(b: nat)
    | Ident(a: nat)
    | Ref(a: nat)
    | Defs
    | Section(n: nat)
    | Line(line: nat, file: nat)

  predicate Delimiter(b: nat) {
    b == STRING || b == CONSTANT
  }

  /** Inside quoted material, the byte is copied as it is. */
  predicate Copied(b: nat) {
    !Delimiter(b) && b != NEWLINE
  }

  /** What a two-byte code with value w stands for; a line record needs the bytes after it. */
  function Meaning(w: nat, after: seq<nat>): Option<Item> {
    if w < IDENT_LIMIT then Some(Ident(w))
    else if w == DEFS_FLAG then Some(Defs)
    else if w < SECTION_BASE then Some(Ref(w - IDENT_LIMIT))
    else if w > SECTION_BASE then Some(Section(w - SECTION_BASE))
    else if |after| < 4 || after[2] < 128 then None
    else Some(Line(256 * after[0] + after[1], 256 * (after[2] - 128) + after[3]))
  }

  /** The next item; `quoted` says whether the output is in quoted material. */
  function ReadOne(bytes: seq<nat>, quoted: bool): Option<Item>
    requires bytes != []
  {
    if quoted && Copied(bytes[0]) then Some(Raw(bytes[0]))
    else if bytes[0] < 128 then Some(Char(bytes[0]))
    else if |bytes| < 2 then None
    else Meaning((bytes[0] - 128) * 256 + bytes[1], bytes[2..])
  }

  function Size(item: Item): nat {
    match item
    case Char(_) | Raw(_) => 1
    case Line(_, _) => 6
    case _ => 2
  }

  /** Delimiters switch quotation on and off. */
  predicate Toggled(quoted: bool, item: Item) {
    if item.Char? && Delimiter(item.b) then !quoted else quoted
  }

  lemma ReadSize(bytes: seq<nat>, quoted: bool)
    requires bytes != []
    ensures ReadOne(bytes, quoted).Some? ==> Size(ReadOne(bytes, quoted).value) <= |bytes|
  {
  }

  /** All items of a text, if it is well formed and ends outside quotation. */
  function Read(bytes: seq<nat>, quoted: bool): Option<seq<Item>> {
    if bytes == [] then (if quoted then None else Some([]))
    else
      var item := ReadOne(bytes, quoted);
      if item.None? then None
      else
        ReadSize(bytes, quoted);
        var rest := Read(bytes[Size(item.value)..], Toggled(quoted, item.value));
        if rest.None? then None else Some([item.value] + rest.value)
  }

  /** What `scan_repl` puts into a text. */
  datatype Token =
    | Plain(b: nat)
    | Name(a: nat)
    | Reference(a: nat)
    | Definitions
    | Number(n: nat)
    | Place(line: nat, file: nat)
    | Quoted(delimiter: nat, body: seq<nat>)

  function Two(w: nat): seq<nat> {
    [w / 256, w % 256]
  }

  function EncodeOne(t: Token): seq<nat> {
    match t
    case Plain(b) => [b]
    case Name(a) => [a / 256 + 128, a % 256]
    case Reference(a) => [a / 256 + 168, a % 256]
    case Definitions => [DEFS_FLAG / 256 + 128, DEFS_FLAG % 256]
    case Number(n) => Two(53248 + n)
    case Place(line, file) => Two(53248) + Two(line) + [file / 256 + 128, file % 256]
    case Quoted(d, body) => [d] + body + [d]
  }

  function Encode(ts: seq<Token>): seq<nat> {
    if ts == [] then [] else EncodeOne(ts[0]) + Encode(ts[1..])
  }

  function Bodies(body: seq<nat>): seq<Item> {
    if body == [] then [] else [if body[0] == NEWLINE then Char(NEWLINE) else Raw(body[0])] + Bodies(body[1..])
  }

  /** What a token means. */
  function ItemsOne(t: Token): seq<Item> {
    match t
    case Plain(b) => [Char(b)]
    case Name(a) => [Ident(a)]
    case Reference(a) => [Ref(a)]
    case Definitions => [Defs]
    case Number(n) => [Section(n)]
    case Place(line, file) => [Line(line, file)]
    case Quoted(d, body) => [Char(d)] + Bodies(body) + [Char(d)]
  }

  function Items(ts: seq<Token>): seq<Item> {
    if ts == [] then [] else ItemsOne(ts[0]) + Items(ts[1..])
  }

  /** Tokens that fit their ranges. */
  predicate InRange(t: Token) {
    match t
    case Plain(b) => b < 128
    case Name(a) => a < IDENT_LIMIT
    case Reference(a) => a < IDENT_LIMIT
    case Definitions => true
    case Number(n) => 1 <= n < 12288
    case Place(line, file) => line < 65536 && file < IDENT_LIMIT
    case Quoted(d, body) => Delimiter(d) && forall k :: 0 <= k < |body| ==> body[k] < 256
  }

  /** Tokens whose bytes cannot be taken for something else. */
  predicate Clear(t: Token) {
    match t
    case Plain(b) => !Delimiter(b)
    case Reference(a) => a != DEFS_FLAG - IDENT_LIMIT
    case Quoted(_, body) => forall k :: 0 <= k < |body| ==> !Delimiter(body[k])
    case _ => true
  }

  lemma ReadStep(bytes: seq<nat>, quoted: bool, item: Item, after: seq<nat>)
    requires bytes != [] && ReadOne(bytes, quoted) == Some(item)
    requires Size(item) <= |bytes| && bytes[Size(item)..] == after
    ensures Read(bytes, quoted) ==
            if Read(after, Toggled(quoted, item)).None? then None
            else Some([item] + Read(after, Toggled(quoted, item)).value)
  {
  }

  lemma ReadInside(b: nat, after: seq<nat>)
    requires !Delimiter(b)
    ensures Read([b] + after, true) ==
            if Read(after, true).None? then None
            else Some([if b == NEWLINE then Char(NEWLINE) else Raw(b)] + Read(after, true).value)
  {
    ReadStep([b] + after, true, if b == NEWLINE then Char(NEWLINE) else Raw(b), after);
  }

  lemma {:induction false} ReadBody(body: seq<nat>, after: seq<nat>)
    requires forall k :: 0 <= k < |body| ==> !Delimiter(body[k])
    requires Read(after, true).Some?
    ensures Read(body + after, true) == Some(Bodies(body) + Read(after, true).value)
  {
    hide Read, ReadOne;
    if body == [] {
      assert body + after == after && Bodies(body) + Read(after, true).value == Read(after, true).value;
    } else {
      ReadInside(body[0], body[1..] + after);
      ReadBody(body[1..], after);
      assert body + after == [body[0]] + (body[1..] + after);
      var r := Read(after, true).value;
      assert Bodies(body) + r == [Bodies(body)[0]] + (Bodies(body[1..]) + r);
    }
  }

  lemma ReadShort(t: Token, after: seq<nat>)
    requires InRange(t) && Clear(t) && !t.Quoted?
    ensures ReadOne(EncodeOne(t) + after, false) == Some(ItemsOne(t)[0]) && Size(ItemsOne(t)[0]) == |EncodeOne(t)|
  {
    var all := EncodeOne(t) + after;
    if !t.Plain? {
      assert all[0] == EncodeOne(t)[0] && all[1] == EncodeOne(t)[1];
    }
    if t.Place? {
      assert all[2..][0] == all[2] && all[2..][1] == all[3] && all[2..][2] == all[4] && all[2..][3] == all[5];
    }
  }

  lemma ReadDelimiter(d: nat, quoted: bool, after: seq<nat>)
    requires Delimiter(d)
    ensures Read([d] + after, quoted) ==
            if Read(after, !quoted).None? then None else Some([Char(d)] + Read(after, !quoted).value)
  {
    ReadStep([d] + after, quoted, Char(d), after);
  }

  lemma ReadQuoted(d: nat, body: seq<nat>, after: seq<nat>)
    requires Delimiter(d) && (forall k :: 0 <= k < |body| ==> !Delimiter(body[k])) && Read(after, false).Some?
    ensures Read([d] + body + [d] + after, false) ==
            Some([Char(d)] + Bodies(body) + [Char(d)] + Read(after, false).value)
  {
    hide Read, Bodies;
    ReadDelimiter(d, true, after);
    ReadBody(body, [d] + after);
    ReadDelimiter(d, false, body + ([d] + after));
    assert [d] + body + [d] + after == [d] + (body + ([d] + after));
    var c, b, r := [Char(d)], Bodies(body), Read(after, false).value;
    assert c + b + c + r == c + (b + (c + r));
  }

  /** One token is read back whatever follows it. */
  lemma ReadToken(t: Token, after: seq<nat>)
    requires InRange(t) && Clear(t) && Read(after, false).Some?
    ensures Read(EncodeOne(t) + after, false) == Some(ItemsOne(t) + Read(after, false).value)
  {
    hide Read, ReadOne;
    if t.Quoted? {
      ReadQuoted(t.delimiter, t.body, after);
    } else {
      ReadShort(t, after);
      ReadStep(EncodeOne(t) + after, false, ItemsOne(t)[0], after);
    }
  }

  /** Reading undoes encoding for every sequence of clear tokens. */
  lemma {:induction false} RoundTrip(ts: seq<Token>)
    requires forall k :: 0 <= k < |ts| ==> InRange(ts[k]) && Clear(ts[k])
    ensures Read(Encode(ts), false) == Some(Items(ts))
  {
    if ts != [] {
      RoundTrip(ts[1..]);
      ReadToken(ts[0], Encode(ts[1..]));
    }
  }

  /** Quoted material with a delimiter in it is not read as it was written. */
  lemma {:induction false} BodyBroken(body: seq<nat>, after: seq<nat>, k: nat)
    requires k < |body| && Delimiter(body[k])
    ensures Read(body + after, true).Some? ==>
              exists i :: 0 <= i < |body| && i < |Read(body + after, true).value| &&
                          Read(body + after, true).value[i] != Raw(body[i]) && body[i] != NEWLINE
  {
    if Read(body + after, true).Some? && Copied(body[0]) {
      assert (body + after)[1..] == body[1..] + after;
      BodyBroken(body[1..], after, k - 1);
      var r := Read(body[1..] + after, true).value;
      var i :| 0 <= i < |body[1..]| && i < |r| && r[i] != Raw(body[1..][i]) && body[1..][i] != NEWLINE;
      assert Read(body + after, true).value[i + 1] == r[i];
    } else if Read(body + after, true).Some? && body[0] == NEWLINE {
      assert (body + after)[1..] == body[1..] + after;
      BodyBroken(body[1..], after, k - 1);
      var r := Read(body[1..] + after, true).value;
      var i :| 0 <= i < |body[1..]| && i < |r| && r[i] != Raw(body[1..][i]) && body[1..][i] != NEWLINE;
      assert Read(body + after, true).value[i + 1] == r[i];
    }
  }

  lemma {:induction false} BodiesAt(body: seq<nat>, i: nat)
    requires i < |body|
    ensures |Bodies(body)| == |body| && Bodies(body)[i] == if body[i] == NEWLINE then Char(NEWLINE) else Raw(body[i])
  {
    if i > 0 {
      BodiesAt(body[1..], i - 1);
    } else if |body| > 1 {
      BodiesAt(body[1..], 0);
    }
  }

  lemma QuotedBroken(d: nat, body: seq<nat>)
    requires Delimiter(d) && exists k :: 0 <= k < |body| && Delimiter(body[k])
    ensures Read([d] + body + [d], false) != Some([Char(d)] + Bodies(body) + [Char(d)])
  {
    hide Read;
    ReadDelimiter(d, false, body + [d]);
    assert [d] + body + [d] == [d] + (body + [d]);
    var k :| 0 <= k < |body| && Delimiter(body[k]);
    BodyBroken(body, [d], k);
    var items := [Char(d)] + Bodies(body) + [Char(d)];
    if Read([d] + body + [d], false) == Some(items) {
      var r := Read(body + [d], true).value;
      assert r == items[1..] == Bodies(body) + [Char(d)];
      var i :| 0 <= i < |body| && i < |r| && r[i] != Raw(body[i]) && body[i] != NEWLINE;
      BodiesAt(body, i);
    }
  }

  /** Exactly the clear tokens are read back. */
  lemma ExactlyClear(t: Token)
    requires InRange(t)
    ensures Read(EncodeOne(t), false) == Some(ItemsOne(t)) <==> Clear(t)
  {
    hide Read, Bodies;
    ReadNothing();
    if Clear(t) {
      ReadToken(t, []);
      assert EncodeOne(t) + [] == EncodeOne(t) && ItemsOne(t) + [] == ItemsOne(t);
    } else if t.Quoted? {
      QuotedBroken(t.delimiter, t.body);
    } else if t.Plain? {
      ReadDelimiter(t.b, false, []);
      assert EncodeOne(t) == [t.b] + [];
    } else {
      ReadStep(EncodeOne(t), false, Defs, []);
      assert Read(EncodeOne(t), false).value[0] == Defs;
    }
  }

  lemma ReadNothing()
    ensures Read([], false) == Some([]) && Read([], true) == None
  {
  }

  lemma {:induction false} EncodeMore(ts: seq<Token>, t: Token)
    ensures Encode(ts + [t]) == Encode(ts) + EncodeOne(t)
  {
    if ts == [] {
      assert [t][1..] == [] && ts + [t] == [t];
      assert EncodeOne(t) + [] == EncodeOne(t) == [] + EncodeOne(t);
    } else {
      assert (ts + [t])[1..] == ts[1..] + [t];
      EncodeMore(ts[1..], t);
      assert EncodeOne(ts[0]) + (Encode(ts[1..]) + EncodeOne(t)) == EncodeOne(ts[0]) + Encode(ts[1..]) + EncodeOne(t);
    }
  }

  /** Strings are written with every @ doubled. */
  function Undouble(s: seq<nat>): seq<nat> {
    if s == [] then []
    else if s[0] == AT_SIGN && |s| > 1 && s[1] == AT_SIGN then [AT_SIGN] + Undouble(s[2..])
    else [s[0]] + Undouble(s[1..])
  }

  lemma UndoubleStep(s: seq<nat>, i: nat)
    requires i <= |s|
    ensures s[0..] == s
    ensures i == |s| ==> Undouble(s[i..]) == []
    ensures i < |s| ==>
              Undouble(s[i..]) ==
              if s[i] == AT_SIGN && i + 1 < |s| && s[i + 1] == AT_SIGN then [s[i]] + Undouble(s[i + 2..])
              else [s[i]] + Undouble(s[i + 1..])
  {
    if i < |s| {
      assert s[i..][1..] == s[i + 1..];
      if i + 1 < |s| {
        assert s[i..][2..] == s[i + 2..];
      }
    }
  }

  function Double(s: seq<nat>): seq<nat> {
    if s == [] then []
    else (if s[0] == AT_SIGN then [AT_SIGN, AT_SIGN] else [s[0]]) + Double(s[1..])
  }

  lemma {:induction false} UndoubleDouble(s: seq<nat>)
    ensures Undouble(Double(s)) == s
  {
    if s != [] {
      UndoubleDouble(s[1..]);
      var d := Double(s);
      if s[0] == AT_SIGN {
        assert d[2..] == Double(s[1..]);
      } else {
        assert d[1..] == Double(s[1..]);
      }
    }
  }

  /** The token memory as `scan_repl` and `scan_section` fill it. */
  class TokenWriter {
    var mem: seq<nat>
    ghost var tokens: seq<Token>

    ghost predicate Valid()
      reads this
    {
      mem == Encode(tokens)
    }

    constructor ()
      ensures Valid() && tokens == []
    {
      mem, tokens := [], [];
    }

    /** `app_repl`: a byte. */
    method AppRepl(c: nat)
      requires c < 256
      modifies `mem
      ensures mem == old(mem) + [c]
    {
      mem := mem + [c];
    }

    method StoreTwoBytes(x: nat)
      requires x < 65536
      modifies `mem
      ensures mem == old(mem) + Two(x)
    {
      AppRepl(x / 256);
      AppRepl(x % 256);
    }

    method AppPlain(c: nat)
      requires Valid() && c < 128
      modifies this
      ensures Valid() && tokens == old(tokens) + [Plain(c)]
    {
      AppRepl(c);
      EncodeMore(tokens, Plain(c));
      tokens := tokens + [Plain(c)];
    }

    method AppIdentifier(a: nat)
      requires Valid() && a < IDENT_LIMIT
      modifies this
      ensures Valid() && tokens == old(tokens) + [Name(a)]
    {
      AppRepl(a / 256 + 128);
      AppRepl(a % 256);
      EncodeMore(tokens, Name(a));
      tokens := tokens + [Name(a)];
    }

    /** Where the next line comes from; of the line number 16 bits are kept. */
    method AppPlace(line: nat, file: nat)
      requires Valid() && file < IDENT_LIMIT
      modifies this
      ensures Valid() && tokens == old(tokens) + [Place(line % 65536, file)]
    {
      StoreTwoBytes(53248);
      StoreTwoBytes(line % 65536);
      AppRepl(file / 256 + 128);
      AppRepl(file % 256);
      EncodeMore(tokens, Place(line % 65536, file));
      assert mem == old(mem) + EncodeOne(Place(line % 65536, file));
      tokens := tokens + [Place(line % 65536, file)];
    }

    /** A section name inside C text. */
    method AppSection(a: nat, line: nat, file: nat)
      requires Valid() && a < IDENT_LIMIT && file < IDENT_LIMIT
      modifies this
      ensures Valid() && tokens == old(tokens) + [Reference(a), Place(line % 65536, file)]
    {
      AppRepl(a / 256 + 168);
      AppRepl(a % 256);
      EncodeMore(tokens, Reference(a));
      tokens := tokens + [Reference(a)];
      AppPlace(line, file);
    }

    method AppDefinitions(line: nat, file: nat)
      requires Valid() && file < IDENT_LIMIT
      modifies this
      ensures Valid() && tokens == old(tokens) + [Definitions, Place(line % 65536, file)]
    {
      AppRepl(DEFS_FLAG / 256 + 128);
      AppRepl(DEFS_FLAG % 256);
      EncodeMore(tokens, Definitions);
      tokens := tokens + [Definitions];
      AppPlace(line, file);
    }

    /** The section number that opens a C text. */
    method AppSectionNumber(n: nat)
      requires Valid() && 1 <= n < 12288
      modifies this
      ensures Valid() && tokens == old(tokens) + [Number(n)]
    {
      StoreTwoBytes(53248 + n);
      EncodeMore(tokens, Number(n));
      tokens := tokens + [Number(n)];
    }

    /** The text between delimiters. */
    method AppBody(s: seq<nat>)
      requires forall k :: 0 <= k < |s| ==> s[k] < 256
      modifies `mem
      ensures mem == old(mem) + Undouble(s)
    {
      hide Undouble;
      UndoubleStep(s, 0);
      var i := 0;
      while i < |s|
        invariant i <= |s| && mem + Undouble(s[i..]) == old(mem) + Undouble(s)
        modifies `mem
      {
        UndoubleStep(s, i);
        ghost var before, b := mem, s[i];
        if s[i] == AT_SIGN && i + 1 < |s| && s[i + 1] == AT_SIGN {
          i := i + 1;
        }
        AppRepl(s[i]);
        i := i + 1;
        assert before + ([b] + Undouble(s[i..])) == mem + Undouble(s[i..]);
      }
      UndoubleStep(s, |s|);
      assert mem + [] == mem;
    }

    /** A string or constant, of which s is the text in the web file. */
    method AppQuoted(delimiter: nat, s: seq<nat>)
      requires Valid() && Delimiter(delimiter) && forall k :: 0 <= k < |s| ==> s[k] < 256
      modifies this
      ensures Valid() && tokens == old(tokens) + [Quoted(delimiter, Undouble(s))]
    {
      hide Undouble, Encode;
      AppRepl(delimiter);
      AppBody(s);
      AppRepl(delimiter);
      ghost var t := Quoted(delimiter, Undouble(s));
      EncodeMore(tokens, t);
      assert mem == old(mem) + EncodeOne(t);
      tokens := tokens + [t];
    }
  }
}
