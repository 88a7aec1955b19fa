/** The customer-profile view: the search by customer ID, the list of service statuses shown for the
    loaded customer, and the gate that shows retention offers to customers who churned. */
module CustomerProfile {
  import opened Wrappers
  import opened Text
  import opened CustomerRecord

  // ---------------------------------------------------------------------------------------------
  // Service statuses

  datatype ServiceStatus = ServiceStatus(name: string, status: bool)

  /** The names of the statuses, in the order they are listed. */
  const ServiceNames: seq<string> := [
    "Phone Service", "Multiple Lines", "Internet Service", "Online Security", "Online Backup",
    "Device Protection", "Tech Support", "Streaming TV", "Streaming Movies"]

  /** `getServiceStatuses`: nothing without a customer, otherwise one status per service. */
  function ServiceStatuses(customer: Option<Customer>): seq<ServiceStatus>
  {
    match customer
    case None => []
    case Some(c) => [
      ServiceStatus("Phone Service", c.phoneService == "Yes"),
      ServiceStatus("Multiple Lines", c.multipleLines == "Yes"),
      ServiceStatus("Internet Service", c.internetService != "No"),
      ServiceStatus("Online Security", c.onlineSecurity == "Yes"),
      ServiceStatus("Online Backup", c.onlineBackup == "Yes"),
      ServiceStatus("Device Protection", c.deviceProtection == "Yes"),
      ServiceStatus("Tech Support", c.techSupport == "Yes"),
      ServiceStatus("Streaming TV", c.streamingTV == "Yes"),
      ServiceStatus("Streaming Movies", c.streamingMovies == "Yes")]
  }

  /** The column of the data set that the status at position `i` reports on. */
  function ServiceColumn(c: Customer, i: nat): string
    requires i < 9
  {
    [c.phoneService, c.multipleLines, c.internetService, c.onlineSecurity, c.onlineBackup,
     c.deviceProtection, c.techSupport, c.streamingTV, c.streamingMovies][i]
  }

  /** No customer gives an empty list; a customer gives the nine services in their fixed order, the
      internet status set unless the column reads "No", and every other status set exactly when
      its column reads "Yes". */
  lemma ServiceStatusesShape(customer: Option<Customer>)
    ensures customer.None? ==> ServiceStatuses(customer) == []
    ensures customer.Some? ==>
      var r := ServiceStatuses(customer);
      |r| == |ServiceNames|
      && (forall i :: 0 <= i < |r| ==> r[i].name == ServiceNames[i])
      && (r[2].status <==> ServiceColumn(customer.value, 2) != "No")
      && (forall i :: 0 <= i < |r| && i != 2 ==> (r[i].status <==> ServiceColumn(customer.value, i) == "Yes"))
  {
  }

  lemma ServiceNamesDistinct()
    ensures forall i, j :: 0 <= i < j < |ServiceNames| ==> ServiceNames[i] != ServiceNames[j]
  {
  }

  // ---------------------------------------------------------------------------------------------
  // Retention offers

  /** The effect's condition: a customer is loaded and has churned. */
  predicate ShowRetention(customer: Option<Customer>)
  {
    customer.Some? && customer.value.churn == "Yes"
  }

  /** Offers are only ever shown beside a full status list, and never for a customer whose churn
      column is anything other than exactly "Yes". */
  lemma RetentionNeedsProfile(customer: Option<Customer>)
    ensures ShowRetention(customer) ==> |ServiceStatuses(customer)| == 9
    ensures customer.None? || customer.value.churn != "Yes" ==> !ShowRetention(customer)
  {
  }

  // ---------------------------------------------------------------------------------------------
  // The search

  /** How the profile lookup ended. */
  datatype LookupOutcome =
    | Found(customer: Customer)  // the lookup resolved to a record
    | NullData                   // the lookup resolved to null
    | Threw                      // the lookup threw

  datatype Toast = MissingCustomerId | CustomerNotFound

  /** The customer held after a lookup that ran. */
  function Loaded(outcome: LookupOutcome): (r: Option<Customer>)
    ensures r.Some? <==> outcome.Found?
    ensures r.Some? ==> r.value == outcome.customer
  {
    if outcome.Found? then Some(outcome.customer) else None
  }

  class ProfileView {
    var customerId: string
    var isLoading: bool
    var customer: Option<Customer>
    var showRetentionOffers: bool

    /** Once the effect has run, the offers are shown exactly for a loaded customer who churned. */
    ghost predicate Settled()
      reads this
    {
      showRetentionOffers == ShowRetention(customer)
    }

    constructor ()
      ensures customerId == [] && !isLoading && customer == None && !showRetentionOffers
      ensures Settled()
    {
      customerId := [];
      isLoading := false;
      customer := None;
      showRetentionOffers := false;
    }

    /** The input's `onChange`. */
    method TypeId(text: string)
      modifies this`customerId
      ensures customerId == text
    {
      customerId := text;
    }

    /** The synchronous part of `handleSearch`: an ID that is blank once trimmed raises the missing-ID
        toast and changes nothing; otherwise the search starts with the ID exactly as typed. */
    method BeginSearch() returns (looked: Option<string>, toast: Option<Toast>)
      modifies this`isLoading
      ensures TrimJs(customerId) == [] ==>
        looked == None && toast == Some(MissingCustomerId) && isLoading == old(isLoading)
      ensures TrimJs(customerId) != [] ==> looked == Some(customerId) && toast == None && isLoading
    {
      if TrimJs(customerId) == [] {
        return None, Some(MissingCustomerId);
      }
      isLoading := true;
      looked := Some(customerId);
      toast := None;
    }

    /** The part of `handleSearch` after the lookup: the customer becomes the record found, or none;
        a lookup that threw raises the not-found toast; loading ends in every case. */
    method FinishSearch(outcome: LookupOutcome) returns (toast: Option<Toast>)
      modifies this`isLoading, this`customer
      ensures customer == Loaded(outcome)
      ensures !isLoading
      ensures toast == (if outcome == Threw then Some(CustomerNotFound) else None)
    {
      customer := Loaded(outcome);
      toast := if outcome == Threw then Some(CustomerNotFound) else None;
      isLoading := false;
    }

    /** The effect on `customer`. */
    method RetentionEffect()
      modifies this`showRetentionOffers
      ensures showRetentionOffers == ShowRetention(customer)
      ensures Settled()
    {
      showRetentionOffers := customer.Some? && customer.value.churn == "Yes";
    }

    /** A whole search followed by the effect: a blank ID leaves the customer and the offers as they
        were; otherwise loading ends, the customer is the lookup's record or none, and the offers
        follow the new customer. */
    method Search(outcome: LookupOutcome) returns (looked: Option<string>, toast: Option<Toast>)
      requires Settled()
      modifies this`isLoading, this`customer, this`showRetentionOffers
      ensures Settled()
      ensures TrimJs(customerId) == [] ==>
        looked == None && toast == Some(MissingCustomerId) && customer == old(customer)
        && isLoading == old(isLoading) && showRetentionOffers == old(showRetentionOffers)
      ensures TrimJs(customerId) != [] ==>
        looked == Some(customerId) && !isLoading && customer == Loaded(outcome)
        && toast == (if outcome == Threw then Some(CustomerNotFound) else None)
    {
      looked, toast := BeginSearch();
      if looked.Some? {
        toast := FinishSearch(outcome);
        RetentionEffect();
      }
    }
  }
}
