/** The chat client (services/chat.py): the request `generate` assembles for
    the chat-completion endpoint, and `pick_relevant_tickers`, which lists a
    ticker catalog in a system prompt and reads the model's comma-separated
    reply back into catalog symbols.

    The endpoint itself is outside the model: `complete(request)` stands for
    the contents of the choices it returns. */
module Chat {
  import opened Common

  /** One catalog entry, `{'symbol': ..., 'description': ...}`. */
  datatype Ticker = Ticker(symbol: string, description: string)

  const UserRole: string := "user"
  const SystemRole: string := "system"

  datatype Message = Message(role: string, content: string)

  /** The keyword arguments of the completion call. */
  datatype ChatRequest = ChatRequest(
    model: string,
    messages: seq<Message>,
    maxTokens: int,
    temperature: real,
    topP: real,
    n: int)

  /** The request `generate` sends: the user message, preceded by a system
      message exactly when the system prompt is truthy, and the sampling
      parameters passed through unchanged. */
  function Request(model: string, prompt: string, sysPrompt: Option<string>,
                   maxTokens: int, temperature: real, topP: real, n: int): (req: ChatRequest)
    ensures |req.messages| == if Truthy(sysPrompt) then 2 else 1
    ensures req.messages[|req.messages| - 1] == Message(UserRole, prompt)
    ensures Truthy(sysPrompt) ==> req.messages[0] == Message(SystemRole, sysPrompt.value)
    ensures req.model == model && req.maxTokens == maxTokens && req.temperature == temperature
    ensures req.topP == topP && req.n == n
  {
    var system := if Truthy(sysPrompt) then [Message(SystemRole, sysPrompt.value)] else [];
    ChatRequest(model, system + [Message(UserRole, prompt)], maxTokens, temperature, topP, n)
  }

  /** `generate`: build the parameters, insert the system message in front
      when there is one, and return what the endpoint answers. */
  method Generate(model: string, prompt: string, sysPrompt: Option<string>,
                  maxTokens: int, temperature: real, topP: real, n: int,
                  complete: ChatRequest -> seq<string>)
    returns (completions: seq<string>)
    ensures completions == complete(Request(model, prompt, sysPrompt, maxTokens, temperature, topP, n))
  {
    var messages := [Message(UserRole, prompt)];
    if sysPrompt.Some? && sysPrompt.value != "" {
      messages := [Message(SystemRole, sysPrompt.value)] + messages;
    } else {
      assert messages == [] + messages;
    }
    var params := ChatRequest(model, messages, maxTokens, temperature, topP, n);
    completions := complete(params);
  }

  // ---------------------------------------------------------------------
  // The prompt

  /** The catalog line of the ticker at 0-based position `i`. */
  function CatalogLine(i: nat, t: Ticker): string {
    NatToString(i + 1) + ". " + t.symbol + ": " + t.description
  }

  function CatalogLines(tickers: seq<Ticker>): (lines: seq<string>)
    ensures |lines| == |tickers|
  {
    seq(|tickers|, i requires 0 <= i < |tickers| => CatalogLine(i, tickers[i]))
  }

  /** `tickers_text`: the catalog lines joined by newlines. */
  function CatalogText(tickers: seq<Ticker>): string {
    Join(CatalogLines(tickers), '\n')
  }

  function SystemPrompt(tickers: seq<Ticker>, topK: int): string {
    "You are an expert stock analyst. "
    + "Given a list of stock tickers and their descriptions:\n"
    + CatalogText(tickers) + "\n\n"
    + "You should pick the most relevant ticker symbols based on the user's query. "
    + "From the list above, pick the " + IntToString(topK) + " most relevant ticker symbols (by symbol only)"
    + "Return only a comma-separated list of symbols."
  }

  function UserPrompt(query: string): string {
    "User query: \"" + query + "\"\n"
  }

  /** The model `pick_relevant_tickers` asks: its argument when truthy,
      otherwise the client's own. */
  function ChosenModel(model: Option<string>, clientModel: string): string {
    OrElse(model, clientModel)
  }

  /** The request `pick_relevant_tickers` makes through `generate`. */
  function PickRequest(query: string, tickers: seq<Ticker>, topK: int, model: Option<string>, clientModel: string): ChatRequest {
    Request(ChosenModel(model, clientModel), UserPrompt(query), Some(SystemPrompt(tickers, topK)), 32, 0.2, 1.0, 1)
  }

  /** A catalog line holds no newline when the ticker's fields hold none. */
  lemma CatalogLineHasNoNewline(i: nat, t: Ticker)
    requires '\n' !in t.symbol && '\n' !in t.description
    ensures '\n' !in CatalogLine(i, t)
  {
    var dot, colon := ". ", ": ";
    assert dot == ['.', ' '] && colon == [':', ' '];
  }

  /** The listing reads back as one line per ticker, in catalog order: the
      line of the ticker at position `i` is its 1-based number (whose digits
      read back as `i + 1`), a dot, its symbol, a colon and its description. */
  lemma CatalogListing(tickers: seq<Ticker>)
    requires |tickers| >= 1
    requires forall t :: t in tickers ==> '\n' !in t.symbol && '\n' !in t.description
    ensures var lines := Split(CatalogText(tickers), '\n');
      && |lines| == |tickers|
      && forall i :: 0 <= i < |tickers| ==>
           var num := NatToString(i + 1);
           && lines[i] == num + ". " + tickers[i].symbol + ": " + tickers[i].description
           && DigitsValue(num) == i + 1
  {
    var lines := CatalogLines(tickers);
    forall p | p in lines
      ensures '\n' !in p
    {
      var i :| 0 <= i < |lines| && lines[i] == p;
      CatalogLineHasNoNewline(i, tickers[i]);
    }
    SplitJoin(lines, '\n');
    forall n | 1 <= n <= |tickers|
      ensures DigitsValue(NatToString(n)) == n
    {
      NatToStringRoundTrip(n);
    }
  }

  // ---------------------------------------------------------------------
  // Reading the reply

  /** The symbol of one comma-separated piece: the piece stripped and
      upper-cased, or none when it strips to nothing. */
  function PieceSymbol(p: string): (r: seq<string>)
    ensures |r| <= 1
    ensures r != [] ==> r[0] != [] && IsUpper(r[0])
  {
    var s := Strip(p);
    if s != "" then [Upper(s)] else []
  }

  /** The symbols of the comma-separated pieces, in order. */
  function Symbols(pieces: seq<string>): (symbols: seq<string>)
    ensures |symbols| <= |pieces|
  {
    if pieces == [] then [] else PieceSymbol(pieces[0]) + Symbols(pieces[1..])
  }

  /** Every symbol is non-empty and upper-case. */
  lemma {:induction false} SymbolsWellFormed(pieces: seq<string>)
    ensures forall s :: s in Symbols(pieces) ==> s != [] && IsUpper(s)
  {
    if pieces != [] {
      SymbolsWellFormed(pieces[1..]);
    }
  }

  /** The upper-cased symbols of the catalog. */
  function ValidSymbols(tickers: seq<Ticker>): (valid: set<string>)
    ensures forall s :: s in valid <==> exists t :: t in tickers && s == Upper(t.symbol)
  {
    set t | t in tickers :: Upper(t.symbol)
  }

  /** The symbols that are in `valid`, in their order, duplicates kept. */
  function KeepListed(symbols: seq<string>, valid: set<string>): (kept: seq<string>)
    ensures |kept| <= |symbols|
    ensures forall s :: s in kept ==> s in valid && s in symbols
  {
    if symbols == [] then []
    else (if symbols[0] in valid then [symbols[0]] else []) + KeepListed(symbols[1..], valid)
  }

  /** What `pick_relevant_tickers` makes of the completions: nothing when
      there are none, otherwise the listed symbols of the first completion,
      cut to `topK`. */
  function SelectSymbols(completions: seq<string>, tickers: seq<Ticker>, topK: int): seq<string> {
    if completions == [] then []
    else SliceTo(KeepListed(Symbols(Split(completions[0], ',')), ValidSymbols(tickers)), topK)
  }

  /** `pick_relevant_tickers`. */
  method PickRelevantTickers(query: string, tickers: seq<Ticker>, topK: int, model: Option<string>,
                             clientModel: string, complete: ChatRequest -> seq<string>)
    returns (symbols: seq<string>)
    ensures symbols == SelectSymbols(complete(PickRequest(query, tickers, topK, model, clientModel)), tickers, topK)
  {
    var chosen := ChosenModel(model, clientModel);
    var completions := Generate(chosen, UserPrompt(query), Some(SystemPrompt(tickers, topK)), 32, 0.2, 1.0, 1, complete);
    symbols := SelectSymbols(completions, tickers, topK);
  }

  /** Every returned symbol is the upper-cased form of a catalog symbol and
      a symbol of the first completion; a non-negative `topK` bounds the
      count; no completions give no symbols. */
  lemma SelectionListedAndBounded(completions: seq<string>, tickers: seq<Ticker>, topK: int)
    ensures var r := SelectSymbols(completions, tickers, topK);
      && (forall s :: s in r ==> (exists t :: t in tickers && s == Upper(t.symbol)) && s in Symbols(Split(completions[0], ',')))
      && (0 <= topK ==> |r| <= topK)
      && (completions == [] ==> r == [])
  {
    if completions != [] {
      var kept := KeepListed(Symbols(Split(completions[0], ',')), ValidSymbols(tickers));
      var r := SliceTo(kept, topK);
      forall s | s in r ensures s in kept {
        var i :| 0 <= i < |r| && r[i] == s;
        assert kept[i] == s;
      }
    }
  }

  /** The selection keeps the order of the completion: the listed symbols
      of a reply made of two parts are those of the first part followed by
      those of the second. */
  lemma {:induction false} KeepListedAppend(a: seq<string>, b: seq<string>, valid: set<string>)
    ensures KeepListed(a + b, valid) == KeepListed(a, valid) + KeepListed(b, valid)
  {
    if a != [] {
      KeepListedAppend(a[1..], b, valid);
      assert (a + b)[0] == a[0] && (a + b)[1..] == a[1..] + b;
    } else {
      assert a + b == b;
    }
  }

  /** Duplicates are kept: a listed symbol occurs as often as in the reply,
      an unlisted one not at all. */
  lemma {:induction false} KeepListedCount(symbols: seq<string>, valid: set<string>, s: string)
    ensures multiset(KeepListed(symbols, valid))[s] == if s in valid then multiset(symbols)[s] else 0
  {
    if symbols != [] {
      KeepListedCount(symbols[1..], valid, s);
      assert symbols == [symbols[0]] + symbols[1..];
    }
  }

  /** The symbols of a reply made of two parts are those of the first part
      followed by those of the second. */
  lemma {:induction false} SymbolsAppend(a: seq<string>, b: seq<string>)
    ensures Symbols(a + b) == Symbols(a) + Symbols(b)
    decreases |a|
  {
    if a == [] {
      assert a + b == b;
    } else {
      assert (a + b)[1..] == a[1..] + b;
      SymbolsAppend(a[1..], b);
    }
  }

  /** One piece gives no symbol exactly when it is all white space, and
      otherwise its stripped, upper-cased text. */
  lemma SymbolOfPiece(p: string)
    ensures AllSpace(p) ==> Symbols([p]) == []
    ensures !AllSpace(p) ==> Symbols([p]) == [Upper(Strip(p))]
  {
    StripEmpty(p);
    assert [p][1..] == [];
  }

  /** A symbol carries no white space at either end. */
  lemma SymbolStripped(p: string)
    requires !AllSpace(p)
    ensures Strip(Upper(Strip(p))) == Upper(Strip(p))
  {
    var u := Upper(Strip(p));
    StripEmpty(p);
    StripUnchanged(u);
  }
}
