/**
 * The symbol directory and the ticker-name codec of the Finam store: lookups
 * in the securities directory and the conversion between a data name
 * "BOARD.SYMBOL" and its (board, symbol) pair.
 */
module Tickers {
  import opened Wrappers
  import opened PyStrings

  /**
   * One record of the securities directory. Besides the board and the ticker
   * code a record carries further attributes (lot size, decimals, ...), kept
   * here as opaque name/value pairs so that it matters which record is found.
   */
  datatype Security = Security(board: string, code: string, details: map<string, string>)

  /** The two filters the store searches the directory with. */
  datatype Query = ByCode(code: string) | ByBoardAndCode(board: string, code: string)

  predicate Matches(q: Query, item: Security)
  {
    match q
    case ByCode(code) => item.code == code
    case ByBoardAndCode(board, code) => item.board == board && item.code == code
  }

  /** `k` is the position of the first directory record that `q` accepts. */
  predicate IsFirstMatch(directory: seq<Security>, q: Query, k: nat)
  {
    k < |directory| && Matches(q, directory[k]) &&
    forall j :: 0 <= j < k ==> !Matches(q, directory[j])
  }

  /** `next(item for item in directory if ...)`: the first accepted record, or None where Python raises StopIteration. */
  function FirstMatch(directory: seq<Security>, q: Query): (r: Option<nat>)
    ensures r.Some? ==> IsFirstMatch(directory, q, r.value)
    ensures r.None? <==> forall k :: 0 <= k < |directory| ==> !Matches(q, directory[k])
  {
    if |directory| == 0 then None
    else if Matches(q, directory[0]) then Some(0)
    else
      match FirstMatch(directory[1..], q)
      case None => None
      case Some(k) => Some(k + 1)
  }

  /** `get_symbol_info`: the first record with this board and code; a miss is None, never an error. */
  function GetSymbolInfo(directory: seq<Security>, board: string, symbol: string): (r: Option<Security>)
    ensures r.None? <==> forall k :: 0 <= k < |directory| ==> !(directory[k].board == board && directory[k].code == symbol)
    ensures r.Some? ==> r.value.board == board && r.value.code == symbol
    ensures r.Some? ==> exists k: nat :: IsFirstMatch(directory, ByBoardAndCode(board, symbol), k) && r.value == directory[k]
  {
    match FirstMatch(directory, ByBoardAndCode(board, symbol))
    case None => None
    case Some(k) => Some(directory[k])
  }

  /** `board_symbol_to_data_name`: the board, a dot, the symbol. */
  function BoardSymbolToDataName(board: string, symbol: string): (name: string)
    ensures |name| == |board| + 1 + |symbol|
    ensures name[..|board|] == board && name[|board|] == '.' && name[|board| + 1..] == symbol
  {
    board + "." + symbol
  }

  /**
   * `data_name_to_board_symbol`. A name with a dot is cut at its first dot
   * (later dots stay in the symbol) without looking at the directory; a bare
   * ticker is the symbol itself, and its board is that of the first directory
   * record with that code, or None when there is none.
   */
  function DataNameToBoardSymbol(dataname: string, directory: seq<Security>): (r: (Option<string>, string))
    ensures forall i :: 0 <= i < |dataname| && dataname[i] == '.' && '.' !in dataname[..i] ==>
              r == (Some(dataname[..i]), dataname[i + 1..])
    ensures '.' !in dataname ==> r.1 == dataname
    ensures '.' !in dataname ==>
              (r.0.None? <==> forall k :: 0 <= k < |directory| ==> directory[k].code != dataname)
    ensures '.' !in dataname && r.0.Some? ==>
              exists k: nat :: IsFirstMatch(directory, ByCode(dataname), k) && r.0.value == directory[k].board
  {
    var parts := Split(dataname, '.');
    SplitCount(dataname, '.');
    if |parts| >= 2 then
      var board := parts[0];
      var symbol := Join('.', parts[1..]);
      (Some(board), symbol)
    else
      var symbol := dataname;
      var board := match FirstMatch(directory, ByCode(symbol))
                   case None => None
                   case Some(k) => Some(directory[k].board);
      (board, symbol)
  }

  /** Only the first dot separates: the parse does not depend on the directory. */
  lemma DottedNameIgnoresDirectory(dataname: string, d1: seq<Security>, d2: seq<Security>)
    requires '.' in dataname
    ensures DataNameToBoardSymbol(dataname, d1) == DataNameToBoardSymbol(dataname, d2)
  {
  }

  /** Formatting then parsing gives back the pair, whatever dots the symbol holds, when the board has none. */
  lemma RoundTrip(board: string, symbol: string, directory: seq<Security>)
    requires '.' !in board
    ensures DataNameToBoardSymbol(BoardSymbolToDataName(board, symbol), directory) == (Some(board), symbol)
  {
  }

  /** Parsing a dotted name then formatting the pair gives back the name, and the board is dot-free. */
  lemma Reassemble(dataname: string, directory: seq<Security>)
    requires '.' in dataname
    ensures DataNameToBoardSymbol(dataname, directory).0.Some?
    ensures '.' !in DataNameToBoardSymbol(dataname, directory).0.value
    ensures BoardSymbolToDataName(DataNameToBoardSymbol(dataname, directory).0.value,
                                  DataNameToBoardSymbol(dataname, directory).1) == dataname
  {
  }
}
