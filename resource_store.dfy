/**
 * The five resource stores (app/composables/useAdmins.ts, useDrivers.ts,
 * usePassengers.ts, useRides.ts, useFeedbacks.ts). They differ only in the
 * record type, the id field and the mock list their fetch installs, so they are
 * one generic store instantiated five times.
 */
module ResourceStores {
  import opened Wrappers
  import opened Removal
  import opened Entities

  class ResourceStore<T> {
    /** The id field deletion compares (`admin_id`, `driver_id`, ...). */
    const idOf: T -> int
    /** The list the fetch installs. */
    const mockItems: seq<T>
    var items: seq<T>
    var isLoading: bool
    var error: Option<string>

    constructor(idOf: T -> int, mockItems: seq<T>)
      ensures this.idOf == idOf && this.mockItems == mockItems
      ensures items == [] && !isLoading && error == None
    {
      this.idOf := idOf;
      this.mockItems := mockItems;
      items := [];
      isLoading := false;
      error := None;
    }

    /** `fetchX()`: the list becomes the mock list; no error, no longer loading. */
    method Fetch()
      modifies this
      ensures items == mockItems
      ensures !isLoading && error == None
    {
      isLoading := true;
      error := None;
      items := mockItems;
      isLoading := false;
    }

    /** `deleteX(id)`: drops every entry with that id, keeps the rest in order, and reports success. */
    method Delete(id: int) returns (ok: bool)
      modifies this
      ensures ok
      ensures items == Without(old(items), idOf, id)
      ensures isLoading == old(isLoading) && error == old(error)
    {
      items := Without(items, idOf, id);
      ok := true;
    }
  }

  method UseAdmins() returns (store: ResourceStore<Admin>)
    ensures fresh(store) && store.mockItems == MockAdmins && store.idOf == AdminId
    ensures store.items == [] && !store.isLoading && store.error == None
  {
    store := new ResourceStore(AdminId, MockAdmins);
  }

  method UseDrivers() returns (store: ResourceStore<Driver>)
    ensures fresh(store) && store.mockItems == MockDrivers && store.idOf == DriverId
    ensures store.items == [] && !store.isLoading && store.error == None
  {
    store := new ResourceStore(DriverId, MockDrivers);
  }

  method UsePassengers() returns (store: ResourceStore<Passenger>)
    ensures fresh(store) && store.mockItems == MockPassengers && store.idOf == PassengerId
    ensures store.items == [] && !store.isLoading && store.error == None
  {
    store := new ResourceStore(PassengerId, MockPassengers);
  }

  method UseRides() returns (store: ResourceStore<Ride>)
    ensures fresh(store) && store.mockItems == MockRides && store.idOf == RideId
    ensures store.items == [] && !store.isLoading && store.error == None
  {
    store := new ResourceStore(RideId, MockRides);
  }

  method UseFeedbacks() returns (store: ResourceStore<Feedback>)
    ensures fresh(store) && store.mockItems == MockFeedbacks && store.idOf == FeedbackId
    ensures store.items == [] && !store.isLoading && store.error == None
  {
    store := new ResourceStore(FeedbackId, MockFeedbacks);
  }

  // ---------------------------------------------------------------------
  // The mock lists

  lemma MockAdminIds()
    ensures Keys(MockAdmins, AdminId) == [1, 2, 3]
  {
  }

  /** The mock drivers have ids 101..103 and only license and ownership values the driver type allows. */
  lemma MockDriversWellTyped()
    ensures Keys(MockDrivers, DriverId) == [101, 102, 103]
    ensures forall i :: 0 <= i < |MockDrivers| ==>
      MockDrivers[i].licenseStatus in LicenseStatuses && MockDrivers[i].vehicleOwnership in VehicleOwnerships
  {
  }

  lemma MockPassengerIds()
    ensures Keys(MockPassengers, PassengerId) == [201]
  {
  }

  lemma MockRideIds()
    ensures Keys(MockRides, RideId) == [1, 2, 3, 4, 5]
  {
  }

  lemma MockFeedbackIds()
    ensures Keys(MockFeedbacks, FeedbackId) == [301, 302, 303, 304]
  {
  }

  /**
   * Deletion compares the id only: rides 4 and 5 equal ride 3 in every other
   * field, and deleting ride 3 keeps both.
   */
  lemma DeleteRideComparesOnlyId()
    ensures MockRides[3] == MockRides[2].(rideId := 4) && MockRides[4] == MockRides[2].(rideId := 5)
    ensures Without(MockRides, RideId, 3) == [MockRides[0], MockRides[1], MockRides[3], MockRides[4]]
  {
    var r := MockRides;
    assert r == r[..2] + [r[2]] + r[3..];
    WithoutAppend(r[..2] + [r[2]], r[3..], RideId, 3);
    WithoutAppend(r[..2], [r[2]], RideId, 3);
    WithoutUnchangedIff(r[..2], RideId, 3);
    WithoutUnchangedIff(r[3..], RideId, 3);
  }

  /** After fetching rides and deleting ride 3, the store holds rides 1, 2, 4 and 5. */
  method FetchThenDeleteRide() returns (store: ResourceStore<Ride>)
    ensures Keys(store.items, RideId) == [1, 2, 4, 5]
  {
    store := UseRides();
    store.Fetch();
    var ok := store.Delete(3);
    DeleteRideComparesOnlyId();
  }
}
