/** The module-definition (`.def`) synthesis of `generate_lib_from_dll`:
    the text `dumpbin /EXPORTS` prints, already split into lines, is filtered
    at a fixed column for the `libvlc_` prefix and serialised as an
    `EXPORTS` header followed by one CRLF-terminated symbol per line. */
module DefFile {
  import opened Wrappers

  /** Column at which dumpbin's export table prints the symbol name. */
  const Column: nat := 26
  /** Name prefix of the public C API of libvlc. */
  const ApiPrefix: string := "libvlc_"
  /** First line of the definition; terminated by LF alone. */
  const Header: string := "EXPORTS\n"
  /** Terminator of every symbol line. */
  const Crlf: string := "\r\n"

  predicate StartsWith(s: string, p: string) {
    |p| <= |s| && s[..|p|] == p
  }

  /** Reference definition: a listing line names a public API export when it
      reaches the column and the text from there on has the API prefix. */
  predicate IsApiLine(line: string) {
    |line| >= Column && StartsWith(line[Column..], ApiPrefix)
  }

  /** `line.get(26..)`: the text from the column on, or `None` for a line
      too short to reach it (which is not an error). */
  function Remainder(line: string): (r: Option<string>)
    ensures r.Some? <==> |line| >= Column
    ensures r.Some? ==> line == line[..Column] + r.value
  {
    if |line| >= Column then Some(line[Column..]) else None
  }

  /** The symbol one listing line contributes, if any. */
  function Symbol(line: string): (r: Option<string>)
    ensures r.Some? <==> IsApiLine(line)
    ensures r.Some? ==> line == line[..Column] + r.value && StartsWith(r.value, ApiPrefix)
  {
    match Remainder(line)
    case None => None
    case Some(rest) => if StartsWith(rest, ApiPrefix) then Some(rest) else None
  }

  /** The contribution of one listing line: its symbol, or nothing. */
  function Kept(line: string): (r: seq<string>)
    ensures |r| <= 1
    ensures |r| == 1 <==> IsApiLine(line)
  {
    match Symbol(line)
    case Some(s) => [s]
    case None => []
  }

  /** The exported symbols of a listing, in listing order. */
  function Symbols(lines: seq<string>): (r: seq<string>)
    ensures |r| <= |lines|
  {
    if |lines| == 0 then []
    else Symbols(lines[..|lines| - 1]) + Kept(lines[|lines| - 1])
  }

  /** Indices of the listing lines that name API exports, ascending. */
  function KeptIndices(lines: seq<string>): (idx: seq<nat>)
    ensures forall j :: 0 <= j < |idx| ==> idx[j] < |lines| && IsApiLine(lines[idx[j]])
    ensures forall i :: 0 <= i < |lines| && IsApiLine(lines[i]) ==> i in idx
    ensures forall j, k :: 0 <= j < k < |idx| ==> idx[j] < idx[k]
  {
    if |lines| == 0 then []
    else
      var n := |lines| - 1;
      KeptIndices(lines[..n]) + (if IsApiLine(lines[n]) then [n] else [])
  }

  /** Each symbol followed by CRLF, in order. */
  function Serialise(syms: seq<string>): (r: string) {
    if |syms| == 0 then "" else syms[0] + Crlf + Serialise(syms[1..])
  }

  /** The whole content written to `libvlc.def`. */
  function DefContent(lines: seq<string>): (r: string)
    ensures |r| >= |Header| && r[..|Header|] == Header
  {
    Header + Serialise(Symbols(lines))
  }

  /** The build script's loop, statement by statement. */
  method BuildDef(lines: seq<string>) returns (def: string)
    ensures def == DefContent(lines)
    ensures |def| >= |Header| && def[..|Header|] == Header
  {
    def := Header;
    ghost var syms: seq<string> := [];
    var i := 0;
    while i < |lines|
      invariant 0 <= i <= |lines|
      invariant syms == Symbols(lines[..i])
      invariant def == Header + Serialise(syms)
    {
      var line := lines[i];
      assert lines[..i + 1] == lines[..i] + [line];
      SymbolsSnoc(lines[..i], line);
      SerialiseSnoc(syms, Kept(line));
      if |line| >= Column {
        var rest := line[Column..];
        if |ApiPrefix| <= |rest| && rest[..|ApiPrefix|] == ApiPrefix {
          assert Kept(line) == [rest];
          assert Header + Serialise(syms) + (rest + Crlf) == Header + (Serialise(syms) + (rest + Crlf));
          def := def + (rest + Crlf);
          syms := syms + [rest];
        } else {
          assert Kept(line) == [];
          assert syms + [] == syms;
        }
      } else {
        assert Kept(line) == [];
        assert syms + [] == syms;
      }
      i := i + 1;
    }
    assert lines[..i] == lines;
  }

  // ---------------------------------------------------------------------
  // Reading a definition back

  /** Position of the first LF in `s`. */
  function FindLf(s: string): (r: Option<nat>)
    ensures r.None? ==> '\n' !in s
    ensures r.Some? ==> r.value < |s| && s[r.value] == '\n'
    ensures r.Some? ==> forall j :: 0 <= j < r.value ==> s[j] != '\n'
  {
    if |s| == 0 then None
    else if s[0] == '\n' then Some(0)
    else match FindLf(s[1..])
      case None => None
      case Some(k) => Some(k + 1)
  }

  /** Splits a body into its CRLF-terminated lines; `None` when it is not
      such a sequence of lines. */
  function ParseBody(body: string): (r: Option<seq<string>>)
    decreases |body|
  {
    if |body| == 0 then Some([])
    else match FindLf(body)
      case None => None
      case Some(k) =>
        if k >= 1 && body[k - 1] == '\r' then
          match ParseBody(body[k + 1..])
          case None => None
          case Some(rest) => Some([body[..k - 1]] + rest)
        else None
  }

  /** The symbols listed by a definition, or `None` if it is not one. */
  function ParseDef(content: string): (r: Option<seq<string>>) {
    if StartsWith(content, Header) then ParseBody(content[|Header|..]) else None
  }

  // ---------------------------------------------------------------------
  // Lemmas

  lemma {:induction false} SerialiseSnoc(syms: seq<string>, tail: seq<string>)
    requires |tail| <= 1
    ensures Serialise(syms + tail) ==
            Serialise(syms) + (if |tail| == 1 then tail[0] + Crlf else "")
  {
    if |syms| == 0 {
      assert syms + tail == tail;
      if |tail| == 1 {
        assert tail[1..] == [];
      }
    } else {
      assert (syms + tail)[1..] == syms[1..] + tail;
      SerialiseSnoc(syms[1..], tail);
    }
  }

  /** One more listing line appends its contribution, if any. */
  lemma SymbolsSnoc(lines: seq<string>, line: string)
    ensures Symbols(lines + [line]) == Symbols(lines) + Kept(line)
  {
    assert (lines + [line])[..|lines|] == lines;
  }

  /** Filtering distributes over concatenation of listings: order is kept
      and nothing is merged across the two parts. */
  lemma {:induction false} SymbolsAppend(a: seq<string>, b: seq<string>)
    ensures Symbols(a + b) == Symbols(a) + Symbols(b)
    decreases |b|
  {
    if |b| == 0 {
      assert a + b == a;
    } else {
      var n := |b| - 1;
      assert (a + b)[..|a + b| - 1] == a + b[..n];
      assert (a + b)[|a + b| - 1] == b[n];
      SymbolsAppend(a, b[..n]);
    }
  }

  /** A single line contributes its remainder exactly when it is an API line. */
  lemma SymbolsSingle(line: string)
    ensures IsApiLine(line) ==> Symbols([line]) == [line[Column..]]
    ensures !IsApiLine(line) ==> Symbols([line]) == []
  {
    assert [line][..0] == [];
  }

  /** A line that does not reach the column is dropped wherever it occurs. */
  lemma ShortLineDropped(a: seq<string>, line: string, b: seq<string>)
    requires |line| < Column
    ensures Symbols(a + [line] + b) == Symbols(a + b)
  {
    NonApiLineDropped(a, line, b);
  }

  /** Headers, summaries and foreign symbols are dropped wherever they occur. */
  lemma NonApiLineDropped(a: seq<string>, line: string, b: seq<string>)
    requires !IsApiLine(line)
    ensures Symbols(a + [line] + b) == Symbols(a + b)
  {
    SymbolsAppend(a + [line], b);
    SymbolsAppend(a, [line]);
    SymbolsAppend(a, b);
    SymbolsSingle(line);
  }

  /** An API line adds its remainder at its own place in the output. */
  lemma ApiLineKept(a: seq<string>, line: string, b: seq<string>)
    requires IsApiLine(line)
    ensures Symbols(a + [line] + b) == Symbols(a) + [line[Column..]] + Symbols(b)
  {
    SymbolsAppend(a + [line], b);
    SymbolsAppend(a, [line]);
    SymbolsSingle(line);
  }

  /** No deduplication: a repeated API line yields a repeated symbol. */
  lemma DuplicatesKept(lines: seq<string>, line: string)
    requires IsApiLine(line)
    ensures Symbols(lines + [line, line]) == Symbols(lines) + [line[Column..], line[Column..]]
  {
    var name := line[Column..];
    SymbolsSingle(line);
    assert Symbols([line, line]) == [name, name] by {
      SymbolsAppend([line], [line]);
      assert [line] + [line] == [line, line];
    }
    SymbolsAppend(lines, [line, line]);
  }

  /** The symbols are exactly the remainders of the lines at `KeptIndices`,
      in that (ascending) order: a filter with neither sorting nor
      deduplication. */
  lemma {:induction false} SymbolsAreKeptRemainders(lines: seq<string>)
    ensures |Symbols(lines)| == |KeptIndices(lines)|
    ensures forall j :: 0 <= j < |Symbols(lines)| ==>
              Symbols(lines)[j] == lines[KeptIndices(lines)[j]][Column..]
  {
    if |lines| > 0 {
      var n := |lines| - 1;
      var prefix := lines[..n];
      var last := lines[n];
      SymbolsAreKeptRemainders(prefix);
      var syms, idx := Symbols(prefix), KeptIndices(prefix);
      assert Symbols(lines) == syms + Kept(last);
      assert KeptIndices(lines) == idx + (if IsApiLine(last) then [n] else []);
      forall j | 0 <= j < |idx|
        ensures syms[j] == lines[idx[j]][Column..]
      {
        assert lines[idx[j]] == prefix[idx[j]];
      }
      if IsApiLine(last) {
        assert Kept(last) == [last[Column..]];
      } else {
        assert Kept(last) == [];
      }
    }
  }

  /** Every listing line that reaches the column without a crash and whose
      remainder has the prefix is found in the output; nothing else is. */
  lemma {:induction false} SymbolMembership(lines: seq<string>, s: string)
    ensures s in Symbols(lines) <==>
            exists i :: 0 <= i < |lines| && IsApiLine(lines[i]) && lines[i][Column..] == s
  {
    SymbolsAreKeptRemainders(lines);
    var syms, idx := Symbols(lines), KeptIndices(lines);
    if s in syms {
      var j :| 0 <= j < |syms| && syms[j] == s;
      assert IsApiLine(lines[idx[j]]);
    }
    if exists i :: 0 <= i < |lines| && IsApiLine(lines[i]) && lines[i][Column..] == s {
      var i :| 0 <= i < |lines| && IsApiLine(lines[i]) && lines[i][Column..] == s;
      var j :| 0 <= j < |idx| && idx[j] == i;
      assert syms[j] == s;
    }
  }

  /** When no line reaches the column, the definition is the header alone. */
  lemma {:induction false} AllShortGivesHeaderOnly(lines: seq<string>)
    requires forall i :: 0 <= i < |lines| ==> |lines[i]| < Column
    ensures Symbols(lines) == []
    ensures DefContent(lines) == Header
  {
    if |lines| > 0 {
      AllShortGivesHeaderOnly(lines[..|lines| - 1]);
    }
  }

  lemma {:induction false} ParseBodySerialise(syms: seq<string>)
    requires forall j :: 0 <= j < |syms| ==> '\n' !in syms[j]
    ensures ParseBody(Serialise(syms)) == Some(syms)
  {
    if |syms| > 0 {
      var s := syms[0];
      var rest := Serialise(syms[1..]);
      var body := Serialise(syms);
      assert body == s + "\r\n" + rest;
      assert body[..|s|] == s;
      assert body[|s|] == '\r' && body[|s| + 1] == '\n';
      assert body[..|s| + 1] == s + ['\r'];
      assert FindLf(body) == Some(|s| + 1);
      assert body[|s| + 2..] == rest;
      ParseBodySerialise(syms[1..]);
      assert [s] + syms[1..] == syms;
    }
  }

  /** Symbols inherit the absence of LF from the listing lines. */
  lemma {:induction false} SymbolsHaveNoLf(lines: seq<string>)
    requires forall i :: 0 <= i < |lines| ==> '\n' !in lines[i]
    ensures forall j :: 0 <= j < |Symbols(lines)| ==> '\n' !in Symbols(lines)[j]
  {
    SymbolsAreKeptRemainders(lines);
    forall j | 0 <= j < |Symbols(lines)|
      ensures '\n' !in Symbols(lines)[j]
    {
      assert '\n' !in lines[KeptIndices(lines)[j]];
    }
  }

  /** Round trip: the definition reads back as the header line followed by
      exactly the extracted symbols, one per CRLF-terminated line, so it
      has `|Symbols(lines)| + 1` lines. */
  lemma {:induction false} DefRoundTrip(lines: seq<string>)
    requires forall i :: 0 <= i < |lines| ==> '\n' !in lines[i]
    ensures ParseDef(DefContent(lines)) == Some(Symbols(lines))
  {
    var c := DefContent(lines);
    assert c[..|Header|] == Header;
    assert c[|Header|..] == Serialise(Symbols(lines));
    SymbolsHaveNoLf(lines);
    ParseBodySerialise(Symbols(lines));
  }

  /** The number of symbol lines equals the number of API lines. */
  lemma {:induction false} SymbolLineCount(lines: seq<string>)
    requires forall i :: 0 <= i < |lines| ==> '\n' !in lines[i]
    ensures ParseDef(DefContent(lines)).Some?
    ensures |ParseDef(DefContent(lines)).value| == |KeptIndices(lines)|
  {
    DefRoundTrip(lines);
    SymbolsAreKeptRemainders(lines);
  }

  /** A listing row is its first `Column` characters followed by the
      printed name; the row is kept, as that name, iff the name carries the
      API prefix. */
  lemma RowAtColumn(lead: string, name: string)
    requires |lead| == Column
    ensures Kept(lead + name) == (if StartsWith(name, ApiPrefix) then [name] else [])
  {
    assert (lead + name)[Column..] == name;
  }

  /** The rows of a dumpbin export table: banner, column header, two
      `libvlc_` rows around a foreign row, and the summary. The name column
      starts after the 26-character ordinal, hint and RVA columns. */
  const BannerRow: string := "Dump of file libvlc.dll"
  const ColumnsRow: string := "    ordinal hint RVA      " + "name"
  const AddIntfRow: string := "          1    0 00001000 " + "libvlc_add_intf"
  const ForeignRow: string := "          2    1 00001010 " + "vlc_module_begin"
  const NewRow: string := "          3    2 00001020 " + "libvlc_new"
  const SummaryRow: string := "  Summary"

  const DumpbinTable: seq<string> := [BannerRow, ColumnsRow, AddIntfRow, ForeignRow, NewRow, SummaryRow]

  /** The definition for that table keeps the two API rows, in order, under
      an LF-terminated header. */
  lemma DumpbinTableExample()
    ensures DefContent(DumpbinTable) == "EXPORTS\n" + "libvlc_add_intf" + "\r\n" + "libvlc_new" + "\r\n"
  {
    var syms := ["libvlc_add_intf", "libvlc_new"];
    DumpbinTableSymbols();
    assert syms[1..] == ["libvlc_new"];
    assert syms[1..][1..] == [];
    assert Serialise(syms) == syms[0] + Crlf + (syms[1] + Crlf + "");
  }

  /** The symbols extracted from that table. */
  lemma DumpbinTableSymbols()
    ensures Symbols(DumpbinTable) == ["libvlc_add_intf", "libvlc_new"]
  {
    ExampleRows();
    SixRows(BannerRow, ColumnsRow, AddIntfRow, ForeignRow, NewRow, SummaryRow);
  }

  /** Extraction over a six-row listing is the rows' contributions in row
      order. */
  lemma SixRows(r0: string, r1: string, r2: string, r3: string, r4: string, r5: string)
    ensures Symbols([r0, r1, r2, r3, r4, r5]) ==
            Kept(r0) + Kept(r1) + Kept(r2) + Kept(r3) + Kept(r4) + Kept(r5)
  {
    var k0, k1, k2, k3, k4, k5 := Kept(r0), Kept(r1), Kept(r2), Kept(r3), Kept(r4), Kept(r5);
    assert Symbols([r0]) == k0 by {
      SymbolsSnoc([], r0);
      assert [] + [r0] == [r0];
    }
    assert Symbols([r0, r1]) == k0 + k1 by {
      SymbolsSnoc([r0], r1);
      assert [r0] + [r1] == [r0, r1];
    }
    assert Symbols([r0, r1, r2]) == k0 + k1 + k2 by {
      SymbolsSnoc([r0, r1], r2);
      assert [r0, r1] + [r2] == [r0, r1, r2];
    }
    assert Symbols([r0, r1, r2, r3]) == k0 + k1 + k2 + k3 by {
      SymbolsSnoc([r0, r1, r2], r3);
      assert [r0, r1, r2] + [r3] == [r0, r1, r2, r3];
    }
    assert Symbols([r0, r1, r2, r3, r4]) == k0 + k1 + k2 + k3 + k4 by {
      SymbolsSnoc([r0, r1, r2, r3], r4);
      assert [r0, r1, r2, r3] + [r4] == [r0, r1, r2, r3, r4];
    }
    SymbolsSnoc([r0, r1, r2, r3, r4], r5);
    assert [r0, r1, r2, r3, r4] + [r5] == [r0, r1, r2, r3, r4, r5];
  }

  /** How each row of that table is classified. */
  lemma ExampleRows()
    ensures Kept(BannerRow) == [] && Kept(ColumnsRow) == [] && Kept(SummaryRow) == []
    ensures Kept(AddIntfRow) == ["libvlc_add_intf"]
    ensures Kept(ForeignRow) == []
    ensures Kept(NewRow) == ["libvlc_new"]
  {
    RowAtColumn("    ordinal hint RVA      ", "name");
    RowAtColumn("          1    0 00001000 ", "libvlc_add_intf");
    RowAtColumn("          2    1 00001010 ", "vlc_module_begin");
    assert "vlc_module_begin"[0] != ApiPrefix[0];
    RowAtColumn("          3    2 00001020 ", "libvlc_new");
  }

  /** Twenty-six blanks: a row whose name starts right at the column. */
  const Blanks: string := "                          "

  /** Two rows with the name at column 26, one public and one internal. */
  const BlankPaddedTable: seq<string> := [Blanks + "libvlc_new", Blanks + "some_internal"]

  /** Only the public row of that pair is extracted. */
  lemma BlankPaddedSymbols()
    ensures Symbols(BlankPaddedTable) == ["libvlc_new"]
  {
    var r0, r1 := Blanks + "libvlc_new", Blanks + "some_internal";
    RowAtColumn(Blanks, "libvlc_new");
    RowAtColumn(Blanks, "some_internal");
    assert "some_internal"[0] != ApiPrefix[0];
    SymbolsSnoc([r0], r1);
    SymbolsSingle(r0);
    assert [r0] + [r1] == BlankPaddedTable;
  }

  /** The definition for that pair is the public name alone, after the
      LF-only header. */
  lemma BlankPaddedExample()
    ensures DefContent(BlankPaddedTable) == "EXPORTS\n" + "libvlc_new" + "\r\n"
  {
    BlankPaddedSymbols();
    assert ["libvlc_new"][1..] == [];
  }
}
