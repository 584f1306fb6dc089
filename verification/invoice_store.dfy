/**
 * The invoice store of src/stores/invoiceStore.ts as an explicitly constructed object:
 * the invoice list, the selected invoice and modal flag, the loading flag, and the
 * actions that update them. The getters are the functions of module InvoiceViews,
 * applied to `invoices`.
 *
 * The clock that `addInvoice` reads and the dataset that `loadInvoices` awaits are
 * parameters of the methods that use them.
 */
module InvoiceStore {
  import opened Wrappers
  import opened InvoiceTypes
  import opened InvoiceViews

  // ---------------------------------------------------------------------------
  // updateInvoiceStatus on values
  // ---------------------------------------------------------------------------

  /** `k` is where `invoices.find(inv => inv.id === invoiceId)` stops. */
  predicate IsFirstWithId(invoices: seq<Invoice>, invoiceId: int, k: nat)
  {
    k < |invoices| && invoices[k].id == invoiceId &&
    forall j :: 0 <= j < k ==> invoices[j].id != invoiceId
  }

  /**
   * The list after `updateInvoiceStatus(invoiceId, status)`: the first invoice with that id
   * gets the new status. Nothing but a status changes, and the list keeps its length.
   */
  function WithStatus(invoices: seq<Invoice>, invoiceId: int, status: InvoiceStatus): (r: seq<Invoice>)
    ensures |r| == |invoices|
    ensures forall i :: 0 <= i < |r| ==> r[i].(status := invoices[i].status) == invoices[i]
  {
    if invoices == [] then []
    else if invoices[0].id == invoiceId then [invoices[0].(status := status)] + invoices[1..]
    else [invoices[0]] + WithStatus(invoices[1..], invoiceId, status)
  }

  /** When some invoice has the id, exactly the first such invoice gets the new status. */
  lemma {:induction false} WithStatusAtFirstMatch(invoices: seq<Invoice>, invoiceId: int, status: InvoiceStatus, k: nat)
    requires IsFirstWithId(invoices, invoiceId, k)
    ensures WithStatus(invoices, invoiceId, status) == invoices[k := invoices[k].(status := status)]
  {
    var updated := invoices[k := invoices[k].(status := status)];
    if k == 0 {
      assert updated == [invoices[0].(status := status)] + invoices[1..];
    } else {
      var tail := invoices[1..];
      assert invoices == [invoices[0]] + tail;
      WithStatusAtFirstMatch(tail, invoiceId, status, k - 1);
      assert updated == [invoices[0]] + tail[k - 1 := tail[k - 1].(status := status)];
    }
  }

  /** When no invoice has the id, the list is left as it was. */
  lemma {:induction false} WithStatusNoMatch(invoices: seq<Invoice>, invoiceId: int, status: InvoiceStatus)
    requires forall i :: 0 <= i < |invoices| ==> invoices[i].id != invoiceId
    ensures WithStatus(invoices, invoiceId, status) == invoices
  {
    if invoices != [] {
      WithStatusNoMatch(invoices[1..], invoiceId, status);
      assert invoices == [invoices[0]] + invoices[1..];
    }
  }

  /** Two updates of the same id: the later status wins, with no trace of the earlier one. */
  lemma {:induction false} LastStatusWins(invoices: seq<Invoice>, invoiceId: int, first: InvoiceStatus, second: InvoiceStatus)
    ensures WithStatus(WithStatus(invoices, invoiceId, first), invoiceId, second)
         == WithStatus(invoices, invoiceId, second)
  {
    if invoices != [] && invoices[0].id != invoiceId {
      LastStatusWins(invoices[1..], invoiceId, first, second);
    }
  }

  /** A status change moves an amount between totals but never changes the sum of all amounts. */
  lemma {:induction false} WithStatusKeepsTotalAmount(invoices: seq<Invoice>, invoiceId: int, status: InvoiceStatus)
    ensures TotalAmount(WithStatus(invoices, invoiceId, status)) == TotalAmount(invoices)
  {
    if invoices != [] {
      var r := WithStatus(invoices, invoiceId, status);
      if invoices[0].id == invoiceId {
        assert r[1..] == invoices[1..];
      } else {
        WithStatusKeepsTotalAmount(invoices[1..], invoiceId, status);
        assert r[1..] == WithStatus(invoices[1..], invoiceId, status);
      }
    }
  }

  /** `Array.prototype.find` by id: the index of the first invoice with that id, if any. */
  method FindInvoiceIndex(invoices: seq<Invoice>, invoiceId: int) returns (found: Option<nat>)
    ensures found.Some? ==> IsFirstWithId(invoices, invoiceId, found.value)
    ensures found.None? ==> forall i :: 0 <= i < |invoices| ==> invoices[i].id != invoiceId
  {
    var i := 0;
    while i < |invoices|
      invariant 0 <= i <= |invoices|
      invariant forall j :: 0 <= j < i ==> invoices[j].id != invoiceId
    {
      if invoices[i].id == invoiceId {
        return Some(i);
      }
      i := i + 1;
    }
    return None;
  }

  // ---------------------------------------------------------------------------
  // The store
  // ---------------------------------------------------------------------------

  class Store {
    var invoices: seq<Invoice>
    var selectedInvoice: Option<Invoice>
    var isModalOpen: bool
    var isLoading: bool

    /** The modal is open exactly when an invoice is selected. */
    predicate ModalInSync()
      reads this
    {
      isModalOpen <==> selectedInvoice.Some?
    }

    /**
     * A new store: empty list, nothing selected, modal closed. Construction starts
     * `loadInvoices`, which raises the loading flag before it first waits.
     */
    constructor ()
      ensures ModalInSync()
      ensures invoices == [] && selectedInvoice == None && !isModalOpen && isLoading
    {
      invoices := [];
      selectedInvoice := None;
      isModalOpen := false;
      isLoading := false;
      new;
      BeginLoad();
    }

    /** `loadInvoices` up to its `await`: the loading flag goes up, nothing else changes. */
    method BeginLoad()
      modifies this
      ensures isLoading
      ensures invoices == old(invoices)
      ensures selectedInvoice == old(selectedInvoice) && isModalOpen == old(isModalOpen)
    {
      isLoading := true;
    }

    /**
     * `loadInvoices` after its `await`: `fetched` is the awaited dataset, or None when the
     * wait rejected. The list is replaced only on success; the flag comes down either way.
     */
    method FinishLoad(fetched: Option<seq<Invoice>>)
      modifies this
      ensures !isLoading
      ensures invoices == (if fetched.Some? then fetched.value else old(invoices))
      ensures selectedInvoice == old(selectedInvoice) && isModalOpen == old(isModalOpen)
    {
      if fetched.Some? {
        invoices := fetched.value;
      }
      isLoading := false;
    }

    /** `setInvoices`: the list becomes `newInvoices` as given, with no merge. */
    method SetInvoices(newInvoices: seq<Invoice>)
      modifies this
      ensures invoices == newInvoices
      ensures selectedInvoice == old(selectedInvoice) && isModalOpen == old(isModalOpen)
      ensures isLoading == old(isLoading)
    {
      invoices := newInvoices;
    }

    /**
     * `addInvoice`: the draft plus an id read from the clock (`now`) and a creation time
     * read from the clock a second time (`createdAt`), put at the front and returned.
     */
    method AddInvoice(draft: InvoiceDraft, now: int, createdAt: int) returns (invoice: Invoice)
      modifies this
      ensures WithoutIdentity(invoice) == draft
      ensures invoice.id == now && invoice.createdAt == createdAt
      ensures invoices == [invoice] + old(invoices)
      ensures selectedInvoice == old(selectedInvoice) && isModalOpen == old(isModalOpen)
      ensures isLoading == old(isLoading)
    {
      invoice := WithIdentity(draft, now, createdAt);
      invoices := [invoice] + invoices;
    }

    /** `pushInvoice`: a complete invoice put at the front as it is, with no check on its id. */
    method PushInvoice(invoice: Invoice)
      modifies this
      ensures invoices == [invoice] + old(invoices)
      ensures selectedInvoice == old(selectedInvoice) && isModalOpen == old(isModalOpen)
      ensures isLoading == old(isLoading)
    {
      invoices := [invoice] + invoices;
    }

    /** `openInvoiceModal`: select the invoice and open the modal. */
    method OpenInvoiceModal(invoice: Invoice)
      modifies this
      ensures ModalInSync()
      ensures selectedInvoice == Some(invoice) && isModalOpen
      ensures invoices == old(invoices) && isLoading == old(isLoading)
    {
      selectedInvoice := Some(invoice);
      isModalOpen := true;
    }

    /** `closeInvoiceModal`: clear the selection and close the modal. */
    method CloseInvoiceModal()
      modifies this
      ensures ModalInSync()
      ensures selectedInvoice == None && !isModalOpen
      ensures invoices == old(invoices) && isLoading == old(isLoading)
    {
      selectedInvoice := None;
      isModalOpen := false;
    }

    /**
     * `updateInvoiceStatus`: find the first invoice with the id and set its status;
     * without a match nothing changes.
     */
    method UpdateInvoiceStatus(invoiceId: int, status: InvoiceStatus)
      modifies this
      ensures invoices == WithStatus(old(invoices), invoiceId, status)
      ensures selectedInvoice == old(selectedInvoice) && isModalOpen == old(isModalOpen)
      ensures isLoading == old(isLoading)
    {
      var found := FindInvoiceIndex(invoices, invoiceId);
      if found.Some? {
        var k := found.value;
        WithStatusAtFirstMatch(invoices, invoiceId, status, k);
        invoices := invoices[k := invoices[k].(status := status)];
      } else {
        WithStatusNoMatch(invoices, invoiceId, status);
      }
    }
  }
}
