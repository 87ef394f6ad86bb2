/** The warehouse medicine list: one page of medicines fetched from the API,
    filtered on the client by a search term and a drug type, paged, and a
    confirmation dialog for deleting one medicine. */
module MedicinesPage {
  import opened Common
  import opened Text

  /** The `drug` field of a medicine record: a number (0 medicine,
      1 cosmetic), or `null`, or absent. */
  datatype DrugField = DrugNumber(n: int) | DrugNull | DrugMissing

  /** A medicine record of the page. Prices are modelled as integers. */
  datatype Medicine = Medicine(
    medicineId: int,
    englishMedicineName: Option<string>,
    arabicMedicineName: Option<string>,
    drug: DrugField,
    price: int,
    finalPrice: int,
    quantity: int,
    discount: int)

  /** `String(med.drug)`: a number prints as a numeral that reads back as
      that number, `null` and a missing field as the words. */
  function DrugString(d: DrugField): (r: string)
    ensures d.DrugNumber? ==> ParseInt(r) == d.n
    ensures d.DrugNull? ==> r == "null"
    ensures d.DrugMissing? ==> r == "undefined"
  {
    match d
    case DrugNumber(n) =>
      ParseIntToString(n);
      IntToString(n)
    case DrugNull => "null"
    case DrugMissing => "undefined"
  }

  /** A drug filter value equal to `String(n)` keeps exactly the medicines
      whose drug is the number `n`. */
  lemma {:induction false} DrugFilterSelects(d: DrugField, n: int)
    ensures DrugString(d) == IntToString(n) <==> d == DrugNumber(n)
  {
    match d
    case DrugNumber(m) =>
      IntToStringInjective(m, n);
    case DrugNull =>
      IntToStringNotWord(n, "null");
    case DrugMissing =>
      IntToStringNotWord(n, "undefined");
  }

  /** A decimal numeral never spells a word that starts with a letter. */
  lemma IntToStringNotWord(n: int, w: string)
    requires w != [] && 'a' <= w[0] <= 'z'
    ensures IntToString(n) != w
  {
    if n < 0 {
      assert IntToString(n)[0] == '-';
    } else {
      assert '0' <= NatToString(n)[0] <= '9';
    }
  }

  /** The options of the drug-type selector: value and label. */
  const DrugOptions: seq<(string, string)> := [("", "كل الأنواع"), ("0", "أدوية"), ("1", "مستحضرات تجميل")]

  /** The label of a drug number, `غير محدد` (unspecified) for any other number. */
  function DrugText(drug: int): (r: string)
    ensures r == "غير محدد" <==> drug != 0 && drug != 1
    ensures drug == 0 ==> r == "دواء"
    ensures drug == 1 ==> r == DrugOptions[2].1
  {
    if drug == 0 then "دواء"
    else if drug == 1 then "مستحضرات تجميل"
    else "غير محدد"
  }

  /** The search test against the lower-cased term `term`: the English name,
      lower-cased, contains it, or the Arabic name, as it is, contains it.
      A missing or empty name never matches. */
  function MatchesTerm(m: Medicine, term: string): (r: bool)
    ensures r ==> TruthyString(m.englishMedicineName) || TruthyString(m.arabicMedicineName)
    ensures term == [] ==> (r <==> TruthyString(m.englishMedicineName) || TruthyString(m.arabicMedicineName))
    ensures r && (exists k :: 0 <= k < |term| && IsUpperAscii(term[k])) ==>
              TruthyString(m.arabicMedicineName) && Contains(m.arabicMedicineName.value, term)
  {
    var english := TruthyString(m.englishMedicineName) && Contains(ToLower(m.englishMedicineName.value), term);
    var arabic := TruthyString(m.arabicMedicineName) && Contains(m.arabicMedicineName.value, term);
    if TruthyString(m.englishMedicineName) then
      var lower := ToLower(m.englishMedicineName.value);
      assert OccursAt(lower, term, 0) || term != [];
      assert (exists k :: 0 <= k < |term| && IsUpperAscii(term[k])) ==> !english by {
        if exists k :: 0 <= k < |term| && IsUpperAscii(term[k]) {
          var k :| 0 <= k < |term| && IsUpperAscii(term[k]);
          assert forall i :: OccursAt(lower, term, i) ==> term[k] == lower[i + k];
        }
      }
      english || arabic
    else
      assert TruthyString(m.arabicMedicineName) ==> OccursAt(m.arabicMedicineName.value, term, 0) || term != [];
      english || arabic
  }

  /** Whether `applyFilters` keeps a medicine for the given term and drug value. */
  function Kept(m: Medicine, searchTerm: string, selectedDrug: string): (r: bool)
    ensures searchTerm == "" && selectedDrug == "" ==> r
    ensures r && selectedDrug != "" && selectedDrug != "null" && selectedDrug != "undefined" ==>
              m.drug.DrugNumber? && ParseInt(selectedDrug) == m.drug.n
    ensures r && searchTerm != "" ==>
              TruthyString(m.englishMedicineName) || TruthyString(m.arabicMedicineName)
  {
    (searchTerm == "" || MatchesTerm(m, ToLower(searchTerm))) &&
    (selectedDrug == "" || DrugString(m.drug) == selectedDrug)
  }

  /** The search stage's test, for the term as typed. */
  function SearchTest(searchTerm: string): Medicine -> bool {
    (m: Medicine) => MatchesTerm(m, ToLower(searchTerm))
  }

  /** The drug stage's test, for the selected drug value. */
  function DrugTest(selectedDrug: string): Medicine -> bool {
    (m: Medicine) => DrugString(m.drug) == selectedDrug
  }

  /** The filtered page: the search filter when the term is non-empty, then
      the drug filter when a drug value is selected. */
  function Filtered(all: seq<Medicine>, searchTerm: string, selectedDrug: string): (r: seq<Medicine>)
    ensures IsSubsequence(r, all)
    ensures forall m :: m in r <==> m in all && Kept(m, searchTerm, selectedDrug)
    ensures searchTerm == "" && selectedDrug == "" ==> r == all
  {
    var bySearch := if searchTerm == "" then all else Filter(SearchTest(searchTerm), all);
    var byDrug := if selectedDrug == "" then bySearch else Filter(DrugTest(selectedDrug), bySearch);
    SubsequenceReflexive(all);
    SubsequenceReflexive(bySearch);
    SubsequenceTransitive(byDrug, bySearch, all);
    byDrug
  }

  /** The two filter stages together are one filter by `Kept`. */
  lemma {:induction false} FilteredIsOneFilter(all: seq<Medicine>, searchTerm: string, selectedDrug: string)
    ensures Filtered(all, searchTerm, selectedDrug) == Filter((m: Medicine) => Kept(m, searchTerm, selectedDrug), all)
  {
    var kept := (m: Medicine) => Kept(m, searchTerm, selectedDrug);
    var bySearch := SearchTest(searchTerm);
    var byDrug := DrugTest(selectedDrug);
    if searchTerm == "" && selectedDrug == "" {
      FilterKeepsAll(kept, all);
    } else if searchTerm == "" {
      FilterExtensional(byDrug, kept, all);
    } else if selectedDrug == "" {
      FilterExtensional(bySearch, kept, all);
    } else {
      FilterFilter(bySearch, byDrug, kept, all);
    }
  }

  lemma {:induction false} SubsequenceReflexive<T>(s: seq<T>)
    ensures IsSubsequence(s, s)
  {
    if s != [] {
      SubsequenceReflexive(s[1..]);
    }
  }

  /** A subsequence of a subsequence is a subsequence. */
  lemma {:induction false} SubsequenceTransitive<T>(a: seq<T>, b: seq<T>, c: seq<T>)
    requires IsSubsequence(a, b) && IsSubsequence(b, c)
    ensures IsSubsequence(a, c)
    decreases |c|
  {
    if a != [] {
      assert b != [] && c != [];
      if b[0] == c[0] && IsSubsequence(b[1..], c[1..]) {
        if a[0] == b[0] && IsSubsequence(a[1..], b[1..]) {
          SubsequenceTransitive(a[1..], b[1..], c[1..]);
        } else {
          SubsequenceTransitive(a, b[1..], c[1..]);
        }
      } else {
        SubsequenceTransitive(a, b, c[1..]);
      }
    }
  }

  /** The list after a successful delete of `id`: every entry with another id,
      in the same order, and none with this one. */
  function WithoutMedicine(ms: seq<Medicine>, id: int): (r: seq<Medicine>)
    ensures IsSubsequence(r, ms)
    ensures forall m :: m in r <==> m in ms && m.medicineId != id
    ensures forall m :: multiset(r)[m] == if m.medicineId == id then 0 else multiset(ms)[m]
  {
    Filter((m: Medicine) => m.medicineId != id, ms)
  }

  const CheckingMessage: string := "جاري التحقق من حالة الثقة..."
  const TrustedMessage: string := "المستودع موثوق - يمكن تعديل وحذف الأدوية"
  const UntrustedMessage: string := "المستودع غير موثوق - لا يمكن تعديل أو حذف الأدوية"

  /** The trust banner: while the check runs it says so whatever the flag. */
  function TrustStatusMessage(checking: bool, trusted: bool): (r: string)
    ensures r == CheckingMessage <==> checking
    ensures r == TrustedMessage <==> !checking && trusted
    ensures r == UntrustedMessage <==> !checking && !trusted
  {
    if checking then CheckingMessage
    else if trusted then TrustedMessage
    else UntrustedMessage
  }

  /** The body of the medicines endpoint as far as the view reads it. */
  datatype MedicinePage = MedicinePage(items: Option<seq<Medicine>>, totalPages: Option<int>, totalCount: Option<int>)

  /** `n || d` for a number that may be missing: `d` when missing or 0. */
  function NumberOr(n: Option<int>, d: int): (r: int)
    ensures n.Some? && n.value != 0 ==> r == n.value
    ensures n.None? || n.value == 0 ==> r == d
  {
    if n.Some? && n.value != 0 then n.value else d
  }

  /** The page request `fetchMedicines` sends. */
  datatype PageRequest = PageRequest(warehouseId: string, page: int, pageSize: int)

  /** The delete request `deleteMedicine` sends. */
  datatype DeleteRequest = DeleteRequest(medicineId: int, warehouseId: string)

  /** A `localStorage` warehouse id that `deleteMedicine` accepts. */
  function UsableWarehouseId(stored: Option<string>): (r: bool)
    ensures stored == None || stored == Some("") || stored == Some("null") ==> !r
    ensures !r ==> stored == None || stored == Some("") || stored == Some("null")
  {
    TruthyString(stored) && stored.value != "null"
  }

  class MedicinesComponent {
    var medicines: seq<Medicine>
    var allMedicines: seq<Medicine>
    var currentPage: int
    var pageSize: int
    var warehouseId: string
    var totalPages: int
    var totalCount: int
    var isWarehouseTrusted: bool
    var checkingTrustStatus: bool
    var searchTerm: string
    var selectedDrug: string
    var showConfirmModal: bool
    var medicineIdToDelete: Option<int>
    var medicineToDelete: Option<Medicine>
    var deleting: bool

    constructor ()
      ensures medicines == [] && allMedicines == []
      ensures currentPage == 1 && pageSize == 10 && totalPages == 1 && totalCount == 0
      ensures warehouseId == "" && !isWarehouseTrusted && checkingTrustStatus
      ensures searchTerm == "" && selectedDrug == ""
      ensures !showConfirmModal && medicineIdToDelete == None && medicineToDelete == None && !deleting
      ensures PageInRange() && ModalClosed()
    {
      medicines := [];
      allMedicines := [];
      currentPage := 1;
      pageSize := 10;
      warehouseId := "";
      totalPages := 1;
      totalCount := 0;
      isWarehouseTrusted := false;
      checkingTrustStatus := true;
      searchTerm := "";
      selectedDrug := "";
      showConfirmModal := false;
      medicineIdToDelete := None;
      medicineToDelete := None;
      deleting := false;
    }

    /** The page counter lies within the page count. */
    predicate PageInRange()
      reads this
    {
      1 <= currentPage <= totalPages
    }

    /** The delete dialog is in its closed state. */
    predicate ModalClosed()
      reads this
    {
      !showConfirmModal && medicineIdToDelete == None && medicineToDelete == None && !deleting
    }

    /** Take the warehouse id from the stored warehouse record, falling back
        to "73"; the trust check request follows. */
    method NgOnInit(storedId: Option<string>)
      modifies this`warehouseId
      ensures warehouseId == if TruthyString(storedId) then storedId.value else "73"
    {
      warehouseId := if TruthyString(storedId) then storedId.value else "73";
    }

    /** The outcome of the trust check: trusted only when the record says
        `isTrusted: true`; a failed check counts as untrusted. The page is
        fetched either way. */
    method OnTrustChecked(resp: Response<WarehouseRecord>) returns (req: PageRequest)
      modifies this`isWarehouseTrusted, this`checkingTrustStatus
      ensures isWarehouseTrusted <==> resp.Ok? && TrustedBy(resp.body)
      ensures !checkingTrustStatus
      ensures req == PageRequest(warehouseId, currentPage, pageSize)
    {
      isWarehouseTrusted := resp.Ok? && TrustedBy(resp.body);
      checkingTrustStatus := false;
      req := PageRequest(warehouseId, currentPage, pageSize);
    }

    /** The outcome of the page request: missing fields default, then the
        filters are applied; a failure changes nothing. */
    method OnMedicinesPage(resp: Response<MedicinePage>)
      modifies this`allMedicines, this`totalPages, this`totalCount, this`medicines
      ensures resp.Ok? ==>
                allMedicines == resp.body.items.GetOr([]) &&
                totalPages == NumberOr(resp.body.totalPages, 1) &&
                totalCount == NumberOr(resp.body.totalCount, 0) &&
                medicines == Filtered(allMedicines, searchTerm, selectedDrug)
      ensures resp.Failed? ==>
                allMedicines == old(allMedicines) && totalPages == old(totalPages) &&
                totalCount == old(totalCount) && medicines == old(medicines)
    {
      if resp.Ok? {
        allMedicines := resp.body.items.GetOr([]);
        totalPages := NumberOr(resp.body.totalPages, 1);
        totalCount := NumberOr(resp.body.totalCount, 0);
        ApplyFilters();
      }
    }

    /** Recompute the shown list from the loaded page and the two filters. */
    method ApplyFilters()
      modifies this`medicines
      ensures medicines == Filtered(allMedicines, searchTerm, selectedDrug)
    {
      var filtered := allMedicines;
      if searchTerm != "" {
        filtered := Filter(SearchTest(searchTerm), filtered);
      }
      if selectedDrug != "" {
        filtered := Filter(DrugTest(selectedDrug), filtered);
      }
      medicines := filtered;
    }

    method ClearSearch()
      modifies this`searchTerm, this`medicines
      ensures searchTerm == ""
      ensures medicines == Filtered(allMedicines, "", selectedDrug)
    {
      searchTerm := "";
      ApplyFilters();
    }

    method ClearFilters()
      modifies this`searchTerm, this`selectedDrug, this`medicines
      ensures searchTerm == "" && selectedDrug == ""
      ensures medicines == allMedicines
    {
      searchTerm := "";
      selectedDrug := "";
      ApplyFilters();
    }

    /** Open the delete dialog for `medicineId`; an untrusted warehouse
        leaves the dialog as it is. */
    method ConfirmDeleteMedicine(medicineId: int) returns (dialogOpened: bool)
      modifies this`medicineToDelete, this`medicineIdToDelete, this`showConfirmModal
      ensures dialogOpened == isWarehouseTrusted
      ensures !dialogOpened ==>
                medicineToDelete == old(medicineToDelete) &&
                medicineIdToDelete == old(medicineIdToDelete) &&
                showConfirmModal == old(showConfirmModal)
      ensures dialogOpened ==>
                medicineIdToDelete == Some(medicineId) && showConfirmModal &&
                medicineToDelete == Find((m: Medicine) => m.medicineId == medicineId, medicines)
    {
      if !isWarehouseTrusted {
        return false;
      }
      medicineToDelete := Find((m: Medicine) => m.medicineId == medicineId, medicines);
      medicineIdToDelete := Some(medicineId);
      showConfirmModal := true;
      dialogOpened := true;
    }

    method CloseDeleteModal()
      modifies this`showConfirmModal, this`medicineIdToDelete, this`medicineToDelete, this`deleting
      ensures ModalClosed()
    {
      showConfirmModal := false;
      medicineIdToDelete := None;
      medicineToDelete := None;
      deleting := false;
    }

    /** The dialog's confirm button: nothing happens unless an id is pending
        and non-zero; then the delete starts, or the dialog closes when no
        usable warehouse id is stored. */
    method DeleteMedicineConfirmed(storedWarehouseId: Option<string>) returns (req: Option<DeleteRequest>)
      modifies this`showConfirmModal, this`medicineIdToDelete, this`medicineToDelete, this`deleting
      ensures old(medicineIdToDelete) == None || old(medicineIdToDelete) == Some(0) ==>
                req == None && showConfirmModal == old(showConfirmModal) &&
                medicineIdToDelete == old(medicineIdToDelete) &&
                medicineToDelete == old(medicineToDelete) && deleting == old(deleting)
      ensures old(medicineIdToDelete).Some? && old(medicineIdToDelete) != Some(0) ==>
                if UsableWarehouseId(storedWarehouseId) then
                  req == Some(DeleteRequest(old(medicineIdToDelete).value, storedWarehouseId.value)) &&
                  deleting && showConfirmModal == old(showConfirmModal) &&
                  medicineIdToDelete == old(medicineIdToDelete) && medicineToDelete == old(medicineToDelete)
                else
                  req == None && ModalClosed()
    {
      if medicineIdToDelete.None? || medicineIdToDelete.value == 0 {
        return None;
      }
      deleting := true;
      req := DeleteMedicine(medicineIdToDelete.value, storedWarehouseId);
    }

    /** `deleteMedicine`'s guard on the stored warehouse id. */
    method DeleteMedicine(medicineId: int, storedWarehouseId: Option<string>) returns (req: Option<DeleteRequest>)
      modifies this`showConfirmModal, this`medicineIdToDelete, this`medicineToDelete, this`deleting
      ensures UsableWarehouseId(storedWarehouseId) ==>
                req == Some(DeleteRequest(medicineId, storedWarehouseId.value)) &&
                showConfirmModal == old(showConfirmModal) && medicineIdToDelete == old(medicineIdToDelete) &&
                medicineToDelete == old(medicineToDelete) && deleting == old(deleting)
      ensures !UsableWarehouseId(storedWarehouseId) ==> req == None && ModalClosed()
    {
      if !UsableWarehouseId(storedWarehouseId) {
        CloseDeleteModal();
        return None;
      }
      req := Some(DeleteRequest(medicineId, storedWarehouseId.value));
    }

    /** The outcome of the delete request: on success the rows with that id
        leave the shown list and the dialog closes; on failure only
        `deleting` is cleared. The loaded page is not touched. */
    method OnDeleteResponse(medicineId: int, ok: bool)
      modifies this`medicines, this`showConfirmModal, this`medicineIdToDelete, this`medicineToDelete, this`deleting
      ensures ok ==> medicines == WithoutMedicine(old(medicines), medicineId) && ModalClosed()
      ensures !ok ==> medicines == old(medicines) && !deleting &&
                      showConfirmModal == old(showConfirmModal) &&
                      medicineIdToDelete == old(medicineIdToDelete) && medicineToDelete == old(medicineToDelete)
    {
      if ok {
        medicines := WithoutMedicine(medicines, medicineId);
        CloseDeleteModal();
      } else {
        deleting := false;
      }
    }

    method PrevPage() returns (req: Option<PageRequest>)
      modifies this`currentPage
      ensures old(currentPage) > 1 ==> currentPage == old(currentPage) - 1 &&
                                       req == Some(PageRequest(warehouseId, currentPage, pageSize))
      ensures old(currentPage) <= 1 ==> currentPage == old(currentPage) && req == None
      ensures old(PageInRange()) ==> PageInRange()
    {
      req := None;
      if currentPage > 1 {
        currentPage := currentPage - 1;
        req := Some(PageRequest(warehouseId, currentPage, pageSize));
      }
    }

    method NextPage() returns (req: Option<PageRequest>)
      modifies this`currentPage
      ensures old(currentPage) < totalPages ==> currentPage == old(currentPage) + 1 &&
                                                req == Some(PageRequest(warehouseId, currentPage, pageSize))
      ensures old(currentPage) >= totalPages ==> currentPage == old(currentPage) && req == None
      ensures old(PageInRange()) ==> PageInRange()
    {
      req := None;
      if currentPage < totalPages {
        currentPage := currentPage + 1;
        req := Some(PageRequest(warehouseId, currentPage, pageSize));
      }
    }
  }

  /** Closing the dialog twice is closing it once. */
  method CloseDeleteModalIdempotent(c: MedicinesComponent)
    modifies c
    ensures c.ModalClosed()
    ensures c.medicines == old(c.medicines) && c.currentPage == old(c.currentPage)
  {
    c.CloseDeleteModal();
    c.CloseDeleteModal();
  }

  /** A deleted row is removed from the shown list but not from the loaded
      page, so clearing the filters brings it back until the page is fetched
      again. */
  method DeletedRowReturnsOnClearFilters(c: MedicinesComponent, m: Medicine)
    requires m in c.allMedicines
    modifies c
    ensures m in c.medicines
  {
    c.OnDeleteResponse(m.medicineId, true);
    assert m !in c.medicines;
    c.ClearFilters();
  }
}
