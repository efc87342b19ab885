/**
 * The application context provider: which company is active, restored on
 * mount from the browser's key/value store and written back to it whenever
 * the user picks another company.
 */
module AppProviderComponent {
  import opened Wrappers
  import opened Seqs

  datatype Company = Company(id: string, name: string)

  /** The key under which the active company's id is kept. */
  const CompanyKey := "central-de-pedidos-company"

  /** No two companies of the list share an id. */
  ghost predicate UniqueIds(companies: seq<Company>)
  {
    forall i, j :: 0 <= i < j < |companies| ==> companies[i].id != companies[j].id
  }

  /** `companies.find(c => c.id === id)`: the first company with that id. */
  function FindById(companies: seq<Company>, id: string): (r: Option<Company>)
    ensures r.Some? ==> exists i :: 0 <= i < |companies| && companies[i] == r.value && r.value.id == id
                                    && forall j :: 0 <= j < i ==> companies[j].id != id
    ensures r.None? ==> forall i :: 0 <= i < |companies| ==> companies[i].id != id
  {
    match FindFirst(companies, (c: Company) => c.id == id)
    case None => None
    case Some(i) => Some(companies[i])
  }

  /**
   * The company the mount effect selects from a non-empty list: the first one
   * whose id is the stored (non-empty) id, otherwise the first of the list.
   */
  function RestoreChoice(companies: seq<Company>, stored: Option<string>): (c: Company)
    requires |companies| > 0
    ensures c in companies
    ensures stored.Some? && stored.value != "" && (exists i :: 0 <= i < |companies| && companies[i].id == stored.value)
            ==> c.id == stored.value
                && exists i :: 0 <= i < |companies| && companies[i] == c
                               && forall j :: 0 <= j < i ==> companies[j].id != stored.value
    ensures (stored.None? || stored.value == "" || forall i :: 0 <= i < |companies| ==> companies[i].id != stored.value)
            ==> c == companies[0]
  {
    if stored.Some? && stored.value != "" && FindById(companies, stored.value).Some? then
      FindById(companies, stored.value).value
    else
      companies[0]
  }

  /**
   * Round trip: once the id of a listed company is stored, restoring from the
   * store selects that company again, provided ids are unique and non-empty.
   */
  lemma RestoreAfterStore(companies: seq<Company>, entries: map<string, string>, c: Company)
    requires c in companies && UniqueIds(companies) && c.id != ""
    ensures RestoreChoice(companies, Some(entries[CompanyKey := c.id][CompanyKey])) == c
  {
    var k :| 0 <= k < |companies| && companies[k] == c;
    var r := RestoreChoice(companies, Some(c.id));
    var i :| 0 <= i < |companies| && companies[i] == r
             && forall j :: 0 <= j < i ==> companies[j].id != c.id;
  }

  /** An empty stored id is ignored, whatever company carries it. */
  lemma EmptyIdNotRestored(companies: seq<Company>)
    requires |companies| > 0
    ensures RestoreChoice(companies, Some("")) == companies[0]
  {
  }

  /** The browser's `localStorage`: a string-to-string store. */
  class LocalStorage {
    var entries: map<string, string>

    constructor(initial: map<string, string>)
      ensures entries == initial
    {
      entries := initial;
    }

    /** `getItem`: `None` for JavaScript's `null`. */
    function GetItem(key: string): (r: Option<string>)
      reads this
      ensures r.Some? <==> key in entries
      ensures r.Some? ==> r.value == entries[key]
    {
      if key in entries then Some(entries[key]) else None
    }

    method SetItem(key: string, value: string)
      modifies this
      ensures entries == old(entries)[key := value]
    {
      entries := entries[key := value];
    }

    method RemoveItem(key: string)
      modifies this
      ensures entries == old(entries) - {key}
    {
      entries := entries - {key};
    }
  }

  class AppProvider {
    const companies: seq<Company>
    const storage: LocalStorage
    var activeCompany: Option<Company>

    /** Mounting: no company is active until the restore effect runs. */
    constructor(initialCompanies: seq<Company>, storage: LocalStorage)
      ensures companies == initialCompanies && this.storage == storage
      ensures activeCompany == None
    {
      companies := initialCompanies;
      this.storage := storage;
      activeCompany := None;
    }

    /** The mount effect: restore the stored company, else take the first one; with no companies, do nothing. */
    method RestoreActiveCompany()
      modifies this
      ensures |companies| == 0 ==> activeCompany == old(activeCompany)
      ensures |companies| > 0 ==> activeCompany == Some(RestoreChoice(companies, storage.GetItem(CompanyKey)))
      ensures |companies| > 0 ==> activeCompany.Some? && activeCompany.value in companies
    {
      if |companies| > 0 {
        var stored := storage.GetItem(CompanyKey);
        if stored.Some? && stored.value != "" {
          var found := FindById(companies, stored.value);
          if found.Some? {
            activeCompany := found;
            return;
          }
        }
        activeCompany := Some(companies[0]);
      }
    }

    /** Selecting a company stores its id; clearing the selection removes the key. */
    method SetActiveCompany(company: Option<Company>)
      modifies this, storage
      ensures activeCompany == company
      ensures company.Some? ==> storage.entries == old(storage.entries)[CompanyKey := company.value.id]
      ensures company.None? ==> storage.entries == old(storage.entries) - {CompanyKey}
    {
      activeCompany := company;
      if company.Some? {
        storage.SetItem(CompanyKey, company.value.id);
      } else {
        storage.RemoveItem(CompanyKey);
      }
    }
  }

  /**
   * A session that selects `c`, followed by a fresh mount over the same store:
   * the new provider comes back with `c` active.
   */
  method SelectThenRemount(companies: seq<Company>, storage: LocalStorage, c: Company)
    returns (restored: Option<Company>)
    requires c in companies && UniqueIds(companies) && c.id != ""
    modifies storage
    ensures restored == Some(c)
  {
    var first := new AppProvider(companies, storage);
    first.SetActiveCompany(Some(c));
    var second := new AppProvider(companies, storage);
    second.RestoreActiveCompany();
    RestoreAfterStore(companies, old(storage.entries), c);
    restored := second.activeCompany;
  }
}
