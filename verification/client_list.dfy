/** The client table: the rows of the active company that match the search box. */
module ClientListComponent {
  import opened Wrappers
  import opened Strings
  import opened Seqs
  import opened AppProviderComponent

  datatype Client = Client(id: string, company_id: string, nome_razao_social: string, cpf_cnpj: Option<string>)

  /**
   * The search test: the lower-cased term occurs in the lower-cased name, or
   * in the CPF/CNPJ as stored (that field is not lower-cased).
   */
  predicate MatchesTerm(client: Client, searchTerm: string)
  {
    var term := Lower(searchTerm);
    || Contains(Lower(client.nome_razao_social), term)
    || (client.cpf_cnpj.Some? && Contains(client.cpf_cnpj.value, term))
  }

  /** The filter callback of the table. */
  predicate Shown(client: Client, active: Option<Company>, searchTerm: string)
  {
    && active.Some?
    && client.company_id == active.value.id
    && (searchTerm == "" || MatchesTerm(client, searchTerm))
  }

  function FilteredClients(clients: seq<Client>, active: Option<Company>, searchTerm: string): (r: seq<Client>)
    ensures active.None? ==> r == []
    ensures forall i :: 0 <= i < |r| ==> active.Some? && r[i].company_id == active.value.id
    ensures forall i :: 0 <= i < |clients| ==>
              (clients[i] in r <==> Shown(clients[i], active, searchTerm))
    ensures forall c :: multiset(r)[c] == if Shown(c, active, searchTerm) then multiset(clients)[c] else 0
    ensures IsSubsequence(r, clients)
  {
    var r := Filter(clients, c => Shown(c, active, searchTerm));
    FilterIsSubsequence(clients, c => Shown(c, active, searchTerm));
    FilterCounts(clients, c => Shown(c, active, searchTerm));
    r
  }

  /** With an empty search box the table lists exactly the active company's clients, in order. */
  lemma EmptyTermListsCompany(clients: seq<Client>, company: Company)
    ensures FilteredClients(clients, Some(company), "") == Filter(clients, (c: Client) => c.company_id == company.id)
  {
    FilterCongruent(clients, c => Shown(c, Some(company), ""), (c: Client) => c.company_id == company.id);
  }
}
