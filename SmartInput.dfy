/**
 * The typed command box of src/components/SmartTransactionInput.tsx: a
 * sentence such as "gastei 50 reais no mercado" becomes a transaction. The
 * server's parser is tried first and its answer kept only when it is
 * complete; otherwise a local reader picks the type from keywords, the
 * amount from the first number, the description from what is left and the
 * date from "ontem". Amounts are integer cents, so "50,5" is 5050 exactly;
 * the server's answer and the create call's result are parameters.
 */
module SmartInput {
  import opened Wrappers
  import opened Strings
  import opened Numbers
  import opened Dates
  import opened Format
  import opened Transactions

  /** The transaction a command describes, with the date as the string the create request carries. */
  datatype Command = Command(description: string, amount: int, kind: TxType, date: string)

  // ---------------------------------------------------------------------
  // Word patterns

  /** `/receb|ganhe|salário|salario|renda|pagamento recebido/`. */
  const IncomeWords: seq<string> := ["receb", "ganhe", "salário", "salario", "renda", "pagamento recebido"]

  /** `/gastei|recebi|paguei|comprei|ganhei/`. */
  const VerbWords: seq<string> := ["gastei", "recebi", "paguei", "comprei", "ganhei"]

  /** `/hoje|ontem|anteontem/`. */
  const DayWords: seq<string> := ["hoje", "ontem", "anteontem"]

  /** `/no|na|em|de|com|para/g`. */
  const Particles: seq<string> := ["no", "na", "em", "de", "com", "para"]

  /** `(?:reais|real|r\$|brl)`. */
  const Units: seq<string> := ["reais", "real", "r$", "brl"]

  predicate NonEmptyWords(words: seq<string>) {
    forall i :: 0 <= i < |words| ==> words[i] != []
  }

  /** The alternative an alternation tries first among those that match at the start of s; |words| if none. */
  function FirstPrefix(s: string, words: seq<string>): (i: nat)
    ensures i <= |words|
    ensures i < |words| ==> StartsWith(s, words[i])
    ensures forall j :: 0 <= j < i ==> !StartsWith(s, words[j])
    decreases |words|
  {
    if words == [] then 0
    else if StartsWith(s, words[0]) then 0
    else 1 + FirstPrefix(s, words[1..])
  }

  /** The alternation matches at position p. */
  predicate MatchAt(s: string, words: seq<string>, p: nat)
    requires p <= |s|
  {
    FirstPrefix(s[p..], words) < |words|
  }

  /** `s.replace(/w1|w2|.../, '')`: the leftmost match is removed. */
  function RemoveFirst(s: string, words: seq<string>): (r: string)
    ensures |r| <= |s|
    decreases |s|
  {
    var i := FirstPrefix(s, words);
    if i < |words| then s[|words[i]|..]
    else if s == [] then []
    else [s[0]] + RemoveFirst(s[1..], words)
  }

  /** `s.replace(/w1|w2|.../g, '')`: every match, scanning left to right, is removed. */
  function RemoveAll(s: string, words: seq<string>): (r: string)
    requires NonEmptyWords(words)
    ensures |r| <= |s|
    decreases |s|
  {
    var i := FirstPrefix(s, words);
    if i < |words| then RemoveAll(s[|words[i]|..], words)
    else if s == [] then []
    else [s[0]] + RemoveAll(s[1..], words)
  }

  /** A match one character further into s is a match in its tail. */
  lemma MatchShift(s: string, words: seq<string>)
    requires s != []
    ensures forall q :: 1 <= q <= |s| ==> (MatchAt(s, words, q) <==> MatchAt(s[1..], words, q - 1))
  {
    forall q | 1 <= q <= |s|
      ensures MatchAt(s, words, q) <==> MatchAt(s[1..], words, q - 1)
    {
      assert s[q..] == s[1..][q - 1..];
    }
  }

  /** The length of the alternative that matches at p. */
  function MatchLength(s: string, words: seq<string>, p: nat): (n: nat)
    requires p <= |s| && MatchAt(s, words, p)
    ensures p + n <= |s|
  {
    |words[FirstPrefix(s[p..], words)]|
  }

  /** No alternative matches anywhere before p. */
  predicate NoMatchBefore(s: string, words: seq<string>, p: nat)
    requires p <= |s| + 1
  {
    forall q :: 0 <= q < p ==> !MatchAt(s, words, q)
  }

  /** Dropping the first character shifts the match-free prefix by one. */
  lemma NoMatchBeforeShift(s: string, words: seq<string>, p: nat)
    requires s != [] && 1 <= p <= |s| + 1 && NoMatchBefore(s, words, p)
    ensures !MatchAt(s, words, 0) && NoMatchBefore(s[1..], words, p - 1)
  {
    MatchShift(s, words);
    forall q | 0 <= q < p - 1
      ensures !MatchAt(s[1..], words, q)
    {
      assert !MatchAt(s, words, q + 1);
    }
  }

  /** `replace` without the g flag and no match anywhere leaves s as it is. */
  lemma {:induction false} RemoveFirstNoMatch(s: string, words: seq<string>)
    requires NoMatchBefore(s, words, |s| + 1)
    ensures RemoveFirst(s, words) == s
    decreases |s|
  {
    assert s[0..] == s;
    if s != [] {
      NoMatchBeforeShift(s, words, |s| + 1);
      RemoveFirstNoMatch(s[1..], words);
      assert [s[0]] + s[1..] == s;
    }
  }

  /** `replace` without the g flag removes the leftmost match and nothing else. */
  lemma {:induction false} RemoveFirstLeftmost(s: string, words: seq<string>, p: nat)
    requires p <= |s| && MatchAt(s, words, p) && NoMatchBefore(s, words, p)
    ensures RemoveFirst(s, words) == s[..p] + s[p + MatchLength(s, words, p)..]
    decreases p
  {
    assert s[0..] == s;
    if p == 0 {
      assert s[..0] + s[MatchLength(s, words, 0)..] == s[MatchLength(s, words, 0)..];
    } else {
      LeftmostInTail(s, words, p);
      RemoveFirstLeftmost(s[1..], words, p - 1);
      ConsPrefix(s, p, s[p + MatchLength(s, words, p)..]);
    }
  }

  /**
   * The leftmost match at p > 0 is the leftmost match at p - 1 of the tail,
   * with the same length and the same text after it; none is at the start.
   */
  lemma LeftmostInTail(s: string, words: seq<string>, p: nat)
    requires 1 <= p <= |s| && MatchAt(s, words, p) && NoMatchBefore(s, words, p)
    ensures !MatchAt(s, words, 0) && MatchAt(s[1..], words, p - 1) && NoMatchBefore(s[1..], words, p - 1)
    ensures var n := MatchLength(s, words, p);
      n == MatchLength(s[1..], words, p - 1) && s[1..][p - 1 + n..] == s[p + n..]
  {
    NoMatchBeforeShift(s, words, p);
    assert s[p..] == s[1..][p - 1..];
  }

  /** Putting the first character back in front of a prefix of the tail. */
  lemma ConsPrefix(s: string, p: nat, tail: string)
    requires 1 <= p <= |s|
    ensures [s[0]] + (s[1..][..p - 1] + tail) == s[..p] + tail
  {
    calc {
      [s[0]] + (s[1..][..p - 1] + tail);
      ([s[0]] + s[1..][..p - 1]) + tail;
      { assert [s[0]] + s[1..][..p - 1] == s[..p]; }
      s[..p] + tail;
    }
  }

  /** `replace` with the g flag and no match anywhere leaves s as it is. */
  lemma {:induction false} RemoveAllNoMatch(s: string, words: seq<string>)
    requires NonEmptyWords(words)
    requires NoMatchBefore(s, words, |s| + 1)
    ensures RemoveAll(s, words) == s
    decreases |s|
  {
    assert s[0..] == s;
    if s != [] {
      NoMatchBeforeShift(s, words, |s| + 1);
      RemoveAllNoMatch(s[1..], words);
      assert [s[0]] + s[1..] == s;
    }
  }

  /**
   * `replace` with the g flag removes the leftmost match, then goes on after
   * it; text the removal brings together is not scanned again.
   */
  lemma {:induction false} RemoveAllLeftmost(s: string, words: seq<string>, p: nat)
    requires NonEmptyWords(words)
    requires p <= |s| && MatchAt(s, words, p) && NoMatchBefore(s, words, p)
    ensures RemoveAll(s, words) == s[..p] + RemoveAll(s[p + MatchLength(s, words, p)..], words)
    decreases p
  {
    if p == 0 {
      RemoveAllAtStart(s, words);
    } else {
      LeftmostInTail(s, words, p);
      RemoveAllLeftmost(s[1..], words, p - 1);
      var rest := RemoveAll(s[p + MatchLength(s, words, p)..], words);
      RemoveAllCons(s, words);
      ConsPrefix(s, p, rest);
    }
  }

  /** A match at the very start is dropped and the scan goes on after it. */
  lemma RemoveAllAtStart(s: string, words: seq<string>)
    requires NonEmptyWords(words) && MatchAt(s, words, 0)
    ensures RemoveAll(s, words) == s[..0] + RemoveAll(s[MatchLength(s, words, 0)..], words)
  {
    assert s[0..] == s;
  }

  /** Without a match at the start, the first character is kept and the scan goes on after it. */
  lemma RemoveAllCons(s: string, words: seq<string>)
    requires NonEmptyWords(words) && s != [] && !MatchAt(s, words, 0)
    ensures RemoveAll(s, words) == [s[0]] + RemoveAll(s[1..], words)
  {
    assert s[0..] == s;
  }

  // ---------------------------------------------------------------------
  // The amount

  /** Index of the first decimal digit, or |s|. */
  function FirstDigit(s: string): (i: nat)
    ensures i <= |s|
    ensures i < |s| ==> IsDigit(s[i])
    ensures forall j :: 0 <= j < i ==> !IsDigit(s[j])
  {
    if s == [] then 0 else if IsDigit(s[0]) then 0 else 1 + FirstDigit(s[1..])
  }

  /** The group `(\d+(?:[.,]\d{1,2})?)` of a match: where it starts, its whole digits and its decimal digits. */
  datatype AmountMatch = AmountMatch(start: nat, whole: string, fraction: string)

  /** A separator '.' or ',' followed by a digit at position e. */
  predicate DecimalAt(s: string, e: nat) {
    e + 1 < |s| && (s[e] == '.' || s[e] == ',') && IsDigit(s[e + 1])
  }

  /** The optional `(?:[.,]\d{1,2})` after the whole digits ending at e: greedy, so two digits when there are. */
  function Fraction(s: string, e: nat): (f: string)
    ensures |f| <= 2 && AllDigits(f)
    ensures f == [] <==> !DecimalAt(s, e)
    ensures f != [] ==> e + 1 + |f| <= |s| && s[e + 1..e + 1 + |f|] == f
    ensures |f| == 1 ==> e + 2 == |s| || !IsDigit(s[e + 2])
  {
    if !DecimalAt(s, e) then []
    else if e + 2 < |s| && IsDigit(s[e + 2]) then s[e + 1..e + 3]
    else s[e + 1..e + 2]
  }

  /** `text.match(/(\d+(?:[.,]\d{1,2})?)\s*(?:reais|real|r\$|brl)?/)`, group 1. */
  function MatchAmount(s: string): (m: Option<AmountMatch>)
    ensures m.None? <==> forall i :: 0 <= i < |s| ==> !IsDigit(s[i])
    ensures m.Some? ==> m.value.start + |m.value.whole| <= |s|
    ensures m.Some? ==> forall j :: 0 <= j < m.value.start ==> !IsDigit(s[j])
    ensures m.Some? ==> m.value.whole != [] && AllDigits(m.value.whole)
    ensures m.Some? ==> s[m.value.start..m.value.start + |m.value.whole|] == m.value.whole
    ensures m.Some? ==> m.value.start + |m.value.whole| < |s| ==> !IsDigit(s[m.value.start + |m.value.whole|])
    ensures m.Some? ==> m.value.fraction == Fraction(s, m.value.start + |m.value.whole|)
  {
    var start := FirstDigit(s);
    if start == |s| then None
    else
      var whole := LeadingDigits(s[start..]);
      var e := start + |whole|;
      assert s[start..e] == whole;
      Some(AmountMatch(start, whole, Fraction(s, e)))
  }

  /** `parseFloat(group.replace(',', '.'))` in cents: one decimal digit is tenths, two are hundredths. */
  function Cents(a: AmountMatch): (c: nat)
    requires AllDigits(a.whole) && AllDigits(a.fraction) && |a.fraction| <= 2
    ensures c == 0 <==> Val(a.whole) == 0 && (a.fraction == [] || Val(a.fraction) == 0)
  {
    Val(a.whole) * 100 + (if |a.fraction| == 0 then 0 else if |a.fraction| == 1 then 10 * Val(a.fraction) else Val(a.fraction))
  }

  /** Where the whole match, the trailing white space and an optional unit included, ends. */
  function MatchEnd(s: string, a: AmountMatch): (k: nat)
    requires a.start + |a.whole| + (if a.fraction == [] then 0 else 1 + |a.fraction|) <= |s|
    ensures k <= |s|
  {
    var g := a.start + |a.whole| + (if a.fraction == [] then 0 else 1 + |a.fraction|);
    var w := g + SpaceRun(s[g..]);
    var u := FirstPrefix(s[w..], Units);
    if u < |Units| then w + |Units[u]| else w
  }

  /** The length of the white space `\s*` takes at the start of s. */
  function SpaceRun(s: string): (n: nat)
    ensures n <= |s| && forall j :: 0 <= j < n ==> IsSpace(s[j])
    ensures n < |s| ==> !IsSpace(s[n])
  {
    if s != [] && IsSpace(s[0]) then 1 + SpaceRun(s[1..]) else 0
  }

  /** `.replace(/\d+(?:[.,]\d{1,2})?\s*(?:reais|real|r\$|brl)?/, '')`. */
  function RemoveAmount(s: string): (r: string)
    ensures |r| <= |s|
  {
    var m := MatchAmount(s);
    if m.None? then s
    else
      s[..m.value.start] + s[MatchEnd(s, m.value)..]
  }

  // ---------------------------------------------------------------------
  // The local reader

  /** `cmd.toLowerCase().trim()`. */
  function Normalize(cmd: string): string {
    Trim(Lower(cmd))
  }

  /** The description before its default: verb, amount and day word removed, then every particle, then trimmed. */
  function Stripped(text: string): string {
    Trim(RemoveAll(RemoveFirst(RemoveAmount(RemoveFirst(text, VerbWords)), DayWords), Particles))
  }

  /** The date after the `setDate` adjustment, for the test order the code uses. */
  function CommandDate(text: string, today: Date): Date {
    if Contains(text, "ontem") then AddDays(today, -1)
    else if Contains(text, "anteontem") then AddDays(today, -2)
    else today
  }

  /** `parseCommandWithRegex`. */
  function RegexParse(cmd: string, today: Date): (r: Option<Command>)
    ensures r.None? <==> (forall i :: 0 <= i < |Normalize(cmd)| ==> !IsDigit(Normalize(cmd)[i]))
                         || Cents(MatchAmount(Normalize(cmd)).value) == 0
    ensures r.Some? ==> r.value.amount > 0 && r.value.amount == Cents(MatchAmount(Normalize(cmd)).value)
    ensures r.Some? ==> (r.value.kind == Income <==> ContainsAny(Normalize(cmd), IncomeWords))
    ensures r.Some? ==> r.value.description != ""
    ensures r.Some? ==> var d := Stripped(Normalize(cmd));
      r.value.description == if d != "" then d else if r.value.kind == Income then "Receita" else "Despesa"
    ensures r.Some? ==> r.value.date == FormatISODate(CommandDate(Normalize(cmd), today))
  {
    var text := Normalize(cmd);
    var isIncome := ContainsAny(text, IncomeWords);
    var kind := if isIncome then Income else Expense;
    var amountMatch := MatchAmount(text);
    if amountMatch.None? then None
    else
      var amount := Cents(amountMatch.value);
      if amount <= 0 then None
      else
        var description := Stripped(text);
        var description := if description == "" then (if isIncome then "Receita" else "Despesa") else description;
        Some(Command(description, amount, kind, FormatISODate(CommandDate(text, today))))
  }

  // ---------------------------------------------------------------------
  // The server's parser

  /** The fields of the server's answer as they arrive; the amount is NaN, or cents. */
  datatype AiFields = AiFields(description: Option<string>, amount: Option<Num>, kind: Option<string>,
                               transaction_date: Option<string>)

  /** What `await smartTransactionService.parseCommand(cmd)` gave: an exception, or an answer that may be null. */
  datatype AiOutcome = AiThrew | AiReturned(parsed: Option<AiFields>)

  /** A string field is truthy when present and not empty. */
  predicate Truthy(o: Option<string>) {
    o.Some? && o.value != ""
  }

  /** The answer is taken as it is: all four fields given, a positive amount and a known type. */
  predicate AiAccepted(outcome: AiOutcome) {
    outcome.AiReturned? && outcome.parsed.Some?
    && var f := outcome.parsed.value;
    Truthy(f.description) && Truthy(f.transaction_date)
    && f.amount.Some? && f.amount.value.Finite? && f.amount.value.value > 0
    && f.kind.Some? && (f.kind.value == "income" || f.kind.value == "expense")
  }

  /** `parseCommandWithAI`: the guard chain, each failure falling back to the local reader. */
  function ParseWithAI(cmd: string, outcome: AiOutcome, today: Date): (r: Option<Command>)
    ensures AiAccepted(outcome) ==> var f := outcome.parsed.value;
      r == Some(Command(f.description.value, f.amount.value.value,
                        if f.kind.value == "income" then Income else Expense, f.transaction_date.value))
    ensures !AiAccepted(outcome) ==> r == RegexParse(cmd, today)
  {
    if outcome.AiThrew? then RegexParse(cmd, today)
    else if outcome.parsed.None? then RegexParse(cmd, today)
    else
      var f := outcome.parsed.value;
      if !Truthy(f.description) || f.amount.None? || f.amount.value.NaN? || f.amount.value.value == 0
         || !Truthy(f.kind) || !Truthy(f.transaction_date) then RegexParse(cmd, today)
      else if f.amount.value.value <= 0 then RegexParse(cmd, today)
      else if f.kind.value != "income" && f.kind.value != "expense" then RegexParse(cmd, today)
      else Some(Command(f.description.value, f.amount.value.value,
                        if f.kind.value == "income" then Income else Expense, f.transaction_date.value))
  }

  // ---------------------------------------------------------------------
  // Errors

  /** `errorData.detail`: absent, a string, or an object whose own `detail` may be absent. */
  datatype Detail = NoDetail | DetailText(text: string) | DetailObject(inner: Option<string>)

  /** `err.response.data`: a JSON body, or the text of a body that is not JSON. */
  datatype ErrorBody = JsonBody(detail: Detail, message: Option<string>) | TextBody(text: string)

  /** A rejected request: client.ts throws `{ response: { data, ... }, message }`; other errors have no response. */
  datatype ApiError = ApiError(data: Option<ErrorBody>, message: Option<string>)

  const DefaultError: string := "Erro ao criar transação"

  predicate HasData(e: ApiError) {
    e.data.Some? && !(e.data.value.TextBody? && e.data.value.text == "")
  }

  /** The message of the catch block. */
  function ErrorMessage(e: ApiError): (m: string)
    ensures HasData(e) && e.data.value.JsonBody? && e.data.value.detail.DetailObject? && Truthy(e.data.value.detail.inner)
        ==> m == e.data.value.detail.inner.value
    ensures HasData(e) && e.data.value.JsonBody? && e.data.value.detail.DetailText? ==> m == e.data.value.detail.text
    ensures HasData(e) && e.data.value.JsonBody? && !e.data.value.detail.DetailText?
            && !(e.data.value.detail.DetailObject? && Truthy(e.data.value.detail.inner))
        ==> m == if Truthy(e.data.value.message) then e.data.value.message.value else DefaultError
    ensures HasData(e) && e.data.value.TextBody? ==> m == DefaultError
    ensures !HasData(e) ==> m == if Truthy(e.message) then e.message.value else DefaultError
  {
    if HasData(e) then
      match e.data.value
      case TextBody(_) => DefaultError
      case JsonBody(detail, message) =>
        if detail.DetailObject? && Truthy(detail.inner) then detail.inner.value
        else if detail.DetailText? then detail.text
        else if Truthy(message) then message.value
        else DefaultError
    else if Truthy(e.message) then e.message.value
    else DefaultError
  }

  /** The `onError` handler's choice of message, as the steps run in order. */
  method ErrorText(err: ApiError) returns (message: string)
    ensures message == ErrorMessage(err)
  {
    message := DefaultError;
    if HasData(err) {
      match err.data.value {
        case TextBody(_) =>
        case JsonBody(detail, msg) =>
          if detail.DetailObject? && Truthy(detail.inner) {
            message := detail.inner.value;
          } else if detail.DetailText? {
            message := detail.text;
          } else if Truthy(msg) {
            message := msg.value;
          }
      }
    } else if Truthy(err.message) {
      message := err.message.value;
    }
  }

  // ---------------------------------------------------------------------
  // The component

  const ParseFailedMessage: string := "❌ Não consegui entender o comando. Tente: \"gastei 50 reais no mercado\""

  /** A toast without its formatting: what a success names, or the error text. */
  datatype Toast = SuccessToast(kind: TxType, description: string, amount: int) | ErrorToast(message: string)

  /** What `transactionService.create` did. */
  datatype CreateOutcome = Created | CreateFailed(error: ApiError)

  /** The toast that ends a submission, given the parse and the create call's outcome. */
  function SubmitToast(parsed: Option<Command>, created: CreateOutcome): (t: Toast)
    ensures parsed.None? ==> t == ErrorToast(ParseFailedMessage)
    ensures parsed.Some? && created.Created? ==> t == SuccessToast(parsed.value.kind, parsed.value.description, parsed.value.amount)
    ensures parsed.Some? && created.CreateFailed? ==> t == ErrorToast("❌ " + ErrorMessage(created.error))
  {
    if parsed.None? then ErrorToast(ParseFailedMessage)
    else match created
      case Created => SuccessToast(parsed.value.kind, parsed.value.description, parsed.value.amount)
      case CreateFailed(err) => ErrorToast("❌ " + ErrorMessage(err))
  }

  /**
   * The branches of `handleSubmit` after parsing: the parse failure toast,
   * or the create call's success (which clears the command) or its error.
   */
  method Settle(parsed: Option<Command>, created: CreateOutcome) returns (toast: Toast, clear: bool)
    ensures toast == SubmitToast(parsed, created)
    ensures clear <==> parsed.Some? && created.Created?
  {
    if parsed.None? {
      return ErrorToast(ParseFailedMessage), false;
    }
    match created {
      case Created =>
        toast := SuccessToast(parsed.value.kind, parsed.value.description, parsed.value.amount);
        clear := true;
      case CreateFailed(err) =>
        var message := ErrorText(err);
        toast := ErrorToast("❌ " + message);
        clear := false;
    }
  }

  class SmartForm {
    var command: string
    var isProcessing: bool

    constructor ()
      ensures command == "" && !isProcessing
    {
      command := "";
      isProcessing := false;
    }

    /** The input's `onChange` (the input is disabled while processing). */
    method Type(text: string)
      requires !isProcessing
      modifies this
      ensures command == text && !isProcessing
    {
      command := text;
    }

    /** The start of `handleSubmit`: a blank command or a submission in progress is ignored. */
    method BeginSubmit() returns (started: bool)
      modifies this
      ensures started <==> Trim(old(command)) != "" && !old(isProcessing)
      ensures isProcessing == (old(isProcessing) || started)
      ensures command == old(command)
    {
      if Trim(command) == "" || isProcessing {
        return false;
      }
      isProcessing := true;
      started := true;
    }

    /**
     * The rest of `handleSubmit` once the awaits have answered: a create
     * request only for a parsed command, the toast, the command cleared on
     * success, and the processing flag reset by `finally`.
     */
    method FinishSubmit(outcome: AiOutcome, today: Date, created: CreateOutcome) returns (request: Option<Command>, toast: Toast)
      requires isProcessing
      modifies this
      ensures request == ParseWithAI(old(command), outcome, today)
      ensures toast == SubmitToast(request, created)
      ensures command == if request.Some? && created.Created? then "" else old(command)
      ensures !isProcessing
    {
      request := ParseWithAI(command, outcome, today);
      var clear;
      toast, clear := Settle(request, created);
      if clear {
        command := "";
      }
      isProcessing := false;
    }
  }

  // ---------------------------------------------------------------------
  // Properties

  /** "anteontem" contains "ontem", which is tested first: the day before yesterday is read as yesterday. */
  lemma AnteontemIsYesterday(cmd: string, today: Date)
    requires Contains(Normalize(cmd), "anteontem")
    ensures CommandDate(Normalize(cmd), today) == PrevDay(today)
  {
    assert "anteontem" == "ante" + "ontem";
    ContainsSuffix(Normalize(cmd), "ante", "ontem");
  }

  /** Lower-casing is idempotent. */
  lemma LowerIdempotent(s: string)
    ensures Lower(Lower(s)) == Lower(s)
  {
  }

  /** The reader does not see case: a command and its lower-case form parse alike. */
  lemma ParseIgnoresCase(cmd: string, today: Date)
    ensures RegexParse(Lower(cmd), today) == RegexParse(cmd, today)
  {
    LowerIdempotent(cmd);
  }

  /** A command without a digit is not understood, whatever the server says unless it gives a full answer. */
  lemma NoDigitNoCommand(cmd: string, outcome: AiOutcome, today: Date)
    requires forall i :: 0 <= i < |cmd| ==> !IsDigit(cmd[i])
    requires !AiAccepted(outcome)
    ensures ParseWithAI(cmd, outcome, today) == None
  {
    var low := Lower(cmd);
    assert forall c :: c in low ==> !IsDigit(c);
    TrimMember(low);
    var text := Normalize(cmd);
    assert forall i :: 0 <= i < |text| ==> text[i] in text;
  }

  /**
   * A number in the text, with nothing numeric before it and no decimal
   * separator after it, is read as that many whole units.
   */
  lemma WholeAmount(before: string, n: nat, after: string)
    requires forall i :: 0 <= i < |before| ==> !IsDigit(before[i])
    requires after != [] ==> !IsDigit(after[0]) && after[0] != '.' && after[0] != ','
    ensures var m := MatchAmount(before + NatToString(n) + after);
      m.Some? && m.value.start == |before| && m.value.whole == NatToString(n) && m.value.fraction == []
      && Cents(m.value) == 100 * n
  {
    var d := NatToString(n);
    WholeMatch(before, d, after);
    assert Cents(AmountMatch(|before|, d, [])) == 100 * Val(d);
  }

  /** The match on digits d between a digit-free text and a non-numeric rest. */
  lemma WholeMatch(before: string, d: string, after: string)
    requires forall i :: 0 <= i < |before| ==> !IsDigit(before[i])
    requires d != [] && AllDigits(d)
    requires after != [] ==> !IsDigit(after[0]) && after[0] != '.' && after[0] != ','
    ensures MatchAmount(before + d + after) == Some(AmountMatch(|before|, d, []))
  {
    var s := before + d + after;
    var e := |before| + |d|;
    assert s == before + (d + after);
    FirstDigitAfter(before, d + after);
    assert s[|before|..] == d + after;
    LeadingPrefix(d, after);
    NoDecimalAfter(s, e, after);
  }

  /**
   * The description loses exactly the number: a whole number after text
   * without digits, followed by neither a separator, white space nor a unit,
   * is cut out and the text around it is kept.
   */
  lemma RemoveAmountWhole(before: string, n: nat, after: string)
    requires forall i :: 0 <= i < |before| ==> !IsDigit(before[i])
    requires after != [] ==> !IsDigit(after[0]) && after[0] != '.' && after[0] != ',' && !IsSpace(after[0])
    requires forall u :: 0 <= u < |Units| ==> !StartsWith(after, Units[u])
    ensures RemoveAmount(before + NatToString(n) + after) == before + after
  {
    DigitsAlone(before, NatToString(n), after);
  }

  lemma DigitsAlone(before: string, d: string, after: string)
    requires forall i :: 0 <= i < |before| ==> !IsDigit(before[i])
    requires d != [] && AllDigits(d)
    requires after != [] ==> !IsDigit(after[0]) && after[0] != '.' && after[0] != ',' && !IsSpace(after[0])
    requires forall u :: 0 <= u < |Units| ==> !StartsWith(after, Units[u])
    ensures RemoveAmount(before + d + after) == before + after
  {
    var s := before + d + after;
    var g := |before| + |d|;
    assert s[g..] == after && s[..|before|] == before;
    WholeMatch(before, d, after);
    BareTail(s, g, after);
    RemoveAmountCut(s, AmountMatch(|before|, d, []), g);
  }

  /** After the number at g, nothing more is taken when neither white space nor a unit follows. */
  lemma BareTail(s: string, g: nat, after: string)
    requires g <= |s| && s[g..] == after
    requires after != [] ==> !IsSpace(after[0])
    requires forall u :: 0 <= u < |Units| ==> !StartsWith(after, Units[u])
    ensures SpaceRun(s[g..]) == 0 && FirstPrefix(s[g..], Units) == |Units|
  {
  }

  /** A unit after the number goes with it: `<text> <n> reais<rest>` loses ` <n> reais` but for the first space. */
  lemma RemoveAmountWithUnit(before: string, n: nat, after: string)
    requires forall i :: 0 <= i < |before| ==> !IsDigit(before[i])
    ensures RemoveAmount(before + NatToString(n) + " reais" + after) == before + after
  {
    DigitsWithUnit(before, NatToString(n), after);
  }

  lemma DigitsWithUnit(before: string, d: string, after: string)
    requires forall i :: 0 <= i < |before| ==> !IsDigit(before[i])
    requires d != [] && AllDigits(d)
    ensures RemoveAmount(before + d + " reais" + after) == before + after
  {
    Regroup(before + d, " reais", after);
    DigitsThenUnit(before, d, " reais" + after, after);
  }

  lemma DigitsThenUnit(before: string, d: string, tail: string, after: string)
    requires forall i :: 0 <= i < |before| ==> !IsDigit(before[i])
    requires d != [] && AllDigits(d) && tail == " reais" + after
    ensures RemoveAmount(before + d + tail) == before + after
  {
    var s := before + d + tail;
    var g := |before| + |d|;
    assert s[g..] == tail && s[..|before|] == before;
    assert tail[0] == ' ';
    WholeMatch(before, d, tail);
    UnitTail(s, g, after);
    RemoveAmountCut(s, AmountMatch(|before|, d, []), g + 6);
  }

  /** The removal cuts out the match, from its start to where it ends. */
  lemma RemoveAmountCut(s: string, a: AmountMatch, k: nat)
    requires MatchAmount(s) == Some(a) && a.fraction == []
    requires k == MatchEnd(s, a)
    ensures RemoveAmount(s) == s[..a.start] + s[k..]
  {
  }

  lemma Regroup(a: string, b: string, c: string)
    ensures a + b + c == a + (b + c)
  {
  }

  /** After the number at g, one space and "reais" are taken by the match. */
  lemma UnitTail(s: string, g: nat, after: string)
    requires g <= |s| && s[g..] == " reais" + after
    ensures g + 6 <= |s| && SpaceRun(s[g..]) == 1 && FirstPrefix(s[g + 1..], Units) == 0 && s[g + 6..] == after
  {
    var tail := s[g..];
    assert tail[1..] == "reais" + after;
    assert SpaceRun(tail[1..]) == 0;
    assert s[g + 1..] == tail[1..];
    assert s[g + 1..][..5] == "reais";
  }

  lemma NoDecimalAfter(s: string, e: nat, after: string)
    requires e <= |s| && s[e..] == after
    requires after != [] ==> after[0] != '.' && after[0] != ','
    ensures Fraction(s, e) == []
  {
    if e < |s| {
      assert s[e] == after[0];
    }
  }

  lemma FirstDigitAfter(before: string, rest: string)
    requires forall i :: 0 <= i < |before| ==> !IsDigit(before[i])
    requires rest != [] && IsDigit(rest[0])
    ensures FirstDigit(before + rest) == |before|
  {
    var s := before + rest;
    assert forall j :: 0 <= j < |before| ==> s[j] == before[j];
    assert s[|before|] == rest[0];
  }

  /** The server's complete answer wins; an exception or an incomplete answer leaves it to the local reader. */
  lemma ServerAnswerFirst(cmd: string, f: AiFields, today: Date)
    requires Truthy(f.description) && Truthy(f.transaction_date) && f.kind == Some("expense")
    requires f.amount.Some? && f.amount.value.Finite? && f.amount.value.value > 0
    ensures ParseWithAI(cmd, AiReturned(Some(f)), today)
         == Some(Command(f.description.value, f.amount.value.value, Expense, f.transaction_date.value))
    ensures ParseWithAI(cmd, AiThrew, today) == RegexParse(cmd, today)
    ensures ParseWithAI(cmd, AiReturned(Some(f.(amount := Some(NaN)))), today) == RegexParse(cmd, today)
  {
  }

  /** The server's detail wins over the client's message, but a body without one hides that message. */
  lemma ErrorPrecedence(detail: string, message: string)
    requires message != ""
    ensures ErrorMessage(ApiError(Some(JsonBody(DetailObject(Some(detail)), Some("x"))), Some(message)))
         == if detail != "" then detail else "x"
    ensures ErrorMessage(ApiError(Some(JsonBody(NoDetail, None)), Some(message))) == DefaultError
    ensures ErrorMessage(ApiError(None, Some(message))) == message
    ensures ErrorMessage(ApiError(Some(TextBody("")), Some(message))) == message
  {
  }

  /** A submission ends in an error toast exactly when it creates nothing. */
  lemma FailureShowsError(parsed: Option<Command>, created: CreateOutcome)
    ensures SubmitToast(parsed, created).ErrorToast? <==> parsed.None? || created.CreateFailed?
  {
  }
}
