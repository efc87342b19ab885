/** The quote table: company and client-name filter, status badge colours and the PDF file name. */
module QuoteListComponent {
  import opened Wrappers
  import opened Strings
  import opened Seqs
  import opened AppProviderComponent

  /** A quote row as the table receives it, with the joined client's name. */
  datatype Quote = Quote(
    id: string,
    company_id: string,
    number: Option<nat>,
    clientName: Option<string>,
    status: string)

  /** The search test: only the lower-cased client name is searched, not the quote number. */
  predicate MatchesTerm(quote: Quote, searchTerm: string)
  {
    quote.clientName.Some? && Contains(Lower(quote.clientName.value), Lower(searchTerm))
  }

  predicate Shown(quote: Quote, active: Option<Company>, searchTerm: string)
  {
    && active.Some?
    && quote.company_id == active.value.id
    && (searchTerm == "" || MatchesTerm(quote, searchTerm))
  }

  function FilteredQuotes(quotes: seq<Quote>, active: Option<Company>, searchTerm: string): (r: seq<Quote>)
    ensures active.None? ==> r == []
    ensures forall i :: 0 <= i < |r| ==> active.Some? && r[i].company_id == active.value.id
    ensures forall i :: 0 <= i < |quotes| ==>
              (quotes[i] in r <==> Shown(quotes[i], active, searchTerm))
    ensures forall q :: multiset(r)[q] == if Shown(q, active, searchTerm) then multiset(quotes)[q] else 0
    ensures IsSubsequence(r, quotes)
  {
    var r := Filter(quotes, q => Shown(q, active, searchTerm));
    FilterIsSubsequence(quotes, q => Shown(q, active, searchTerm));
    FilterCounts(quotes, q => Shown(q, active, searchTerm));
    r
  }

  /** With an empty search box the table lists exactly the active company's quotes, in order. */
  lemma EmptyTermListsCompany(quotes: seq<Quote>, company: Company)
    ensures FilteredQuotes(quotes, Some(company), "") == Filter(quotes, (q: Quote) => q.company_id == company.id)
  {
    FilterCongruent(quotes, q => Shown(q, Some(company), ""), (q: Quote) => q.company_id == company.id);
  }

  /** A quote without a client name is hidden by every non-empty search, even one that spells its number. */
  lemma NumberNotSearched(quotes: seq<Quote>, company: Company, searchTerm: string, i: nat)
    requires i < |quotes| && quotes[i].clientName.None? && searchTerm != ""
    ensures quotes[i] !in FilteredQuotes(quotes, Some(company), searchTerm)
  {
  }

  const KnownStatuses: set<string> := {"accepted", "sent", "draft", "rejected", "expired"}

  /** The badge colour of a quote status; drafts share the grey of unknown statuses. */
  function StatusColor(status: string): (c: string)
    ensures c == "bg-gray-500" <==> status == "draft" || status !in KnownStatuses
    ensures status == "accepted" <==> c == "bg-green-500"
    ensures status == "sent" <==> c == "bg-blue-500"
    ensures status == "rejected" <==> c == "bg-red-500"
    ensures status == "expired" <==> c == "bg-yellow-600"
  {
    match status
    case "accepted" => "bg-green-500"
    case "sent" => "bg-blue-500"
    case "draft" => "bg-gray-500"
    case "rejected" => "bg-red-500"
    case "expired" => "bg-yellow-600"
    case _ => "bg-gray-500"
  }

  /** The download name of a quote's PDF; a missing number interpolates as "null". */
  function PdfFileName(number: Option<nat>): (name: string)
    ensures |name| > 14 && name[..10] == "orcamento-" && EndsWith(name, ".pdf")
    ensures number.Some? ==> IsDigits(name[10..|name| - 4]) && ParseDecimal(name[10..|name| - 4]) == number.value
    ensures number.None? ==> name == "orcamento-null.pdf"
  {
    var middle := if number.Some? then Decimal(number.value) else "null";
    var name := "orcamento-" + middle + ".pdf";
    assert name[10..|name| - 4] == middle;
    if number.Some? then DecimalRoundTrip(number.value); name else name
  }

  /** Different quote numbers never download under the same name. */
  lemma PdfFileNamesDistinct(m: nat, n: nat)
    requires m != n
    ensures PdfFileName(Some(m)) != PdfFileName(Some(n))
  {
  }
}
