/**
 * The records the stores hold (the declarations under app/types, as the mock lists in the
 * store files actually fill them) and the stores' mock lists. Timestamps are
 * kept as the text passed to `new Date(...)`; floating-point coordinates and
 * distances of rides are not represented.
 */
module Entities {
  import opened Wrappers

  datatype Admin = Admin(
    adminId: int, username: string, firstName: string, lastName: string, email: string,
    role: string, isActive: int, registeredAt: string, lastLogin: string)

  datatype Driver = Driver(
    driverId: int, firstName: string, lastName: string, middleName: Option<string>, dateOfBirth: string,
    addressRegion: string, addressProvince: string, addressCity: string, addressBarangay: string, addressStreet: string,
    phoneNumber: string, licenseNumber: string, licenseExpirationDate: string,
    licenseStatus: string, vehicleOwnership: string, vehiclePlateNumber: string, qrCode: string, registerAt: string)

  datatype Passenger = Passenger(
    passengerId: int, firstName: string, lastName: string, middleName: Option<string>, username: string,
    dateOfBirth: string, phoneNumber: string, email: string, passwordHash: string, registeredAt: string)

  datatype Ride = Ride(
    rideId: int, driverId: int, passengerId: int, pickupAddress: string, dropoffAddress: string,
    rideDurationMinutes: int, startedAt: string, completedAt: string)

  datatype Feedback = Feedback(
    feedbackId: int, rideId: int, passengerId: int, driverId: int, rating: int,
    comments: Option<string>, createdAt: string)

  function AdminId(a: Admin): int { a.adminId }
  function DriverId(d: Driver): int { d.driverId }
  function PassengerId(p: Passenger): int { p.passengerId }
  function RideId(r: Ride): int { r.rideId }
  function FeedbackId(f: Feedback): int { f.feedbackId }

  /** The values the driver type allows for `license_status` and `vehicle_ownership`. */
  const LicenseStatuses: set<string> := {"active", "expired", "suspended", "revoked"}
  const VehicleOwnerships: set<string> := {"owned", "rented", "company", "other"}

  const MockAdmins: seq<Admin> := [
    Admin(1, "jojoKing", "Joe", "King", "joeking@gmail.com", "moderator", 2,
          "2023-01-15T10:00:00Z", "2024-06-10T08:30:00Z"),
    Admin(2, "sara565", "Sara", "Liu", "saraliu77@gmail.com", "admin", 1,
          "2022-11-20T14:45:00Z", "2026-01-19T16:15:00Z"),
    Admin(3, "mikeT99", "Mike", "Tyson", "mikeyty10@work.com", "superadmin", 1,
          "2023-05-05T09:20:00Z", "2026-01-21T09:40:00Z")
  ]

  const MockDrivers: seq<Driver> := [
    Driver(101, "John", "Doe", Some("Arsol"), "1985-06-15",
           "Region 1", "Province A", "City X", "Barangay 5", "123 Main St",
           "09171234567", "D1234567", "2026-12-31", "active", "owned", "ABC-1234", "QR1234567890", "2020-01-10"),
    Driver(102, "Jane", "Smith", Some("Marie"), "1990-03-22",
           "Region 2", "Province B", "City Y", "Barangay 6", "456 Oak Ave",
           "09179876543", "D7654321", "2025-08-15", "expired", "owned", "XYZ-9999", "QR9999999999", "2021-03-15"),
    Driver(103, "Mike", "Johnson", Some("Lee"), "1988-11-05",
           "Region 3", "Province C", "City Z", "Barangay 7", "789 Pine St",
           "09175551234", "D1111111", "2027-05-20", "suspended", "rented", "DEF-5678", "QR5678567856", "2019-07-01")
  ]

  const MockPassengers: seq<Passenger> := [
    Passenger(201, "Alice", "Johnson", Some("Lynn"), "alicej", "2000-07-15",
              "09171234568", "alice_johnson@gmail.com", "hashed_password_1", "2022-05-20")
  ]

  const MockRides: seq<Ride> := [
    Ride(1, 101, 201, "SM North EDSA, Quezon City", "BGC, Taguig City", 35,
         "2024-01-20T08:30:00", "2024-01-20T09:05:00"),
    Ride(2, 102, 202, "Ortigas Center, Pasig City", "Makati CBD", 25,
         "2024-01-20T09:15:00", "2024-01-20T09:40:00"),
    Ride(3, 103, 203, "Eastwood City, Quezon City", "SM North EDSA", 20,
         "2024-01-20T10:00:00", "2024-01-20T10:20:00"),
    Ride(4, 103, 203, "Eastwood City, Quezon City", "SM North EDSA", 20,
         "2024-01-20T10:00:00", "2024-01-20T10:20:00"),
    Ride(5, 103, 203, "Eastwood City, Quezon City", "SM North EDSA", 20,
         "2024-01-20T10:00:00", "2024-01-20T10:20:00")
  ]

  const MockFeedbacks: seq<Feedback> := [
    Feedback(301, 101, 201, 401, 4, Some("Great ride, friendly driver."), "2023-09-10T10:30:00Z"),
    Feedback(302, 102, 202, 402, 3, Some("Average experience."), "2023-09-11T14:20:00Z"),
    Feedback(303, 103, 203, 403, 5, Some("Excellent service! the driver is very nice and professional."), "2023-09-12T09:15:00Z"),
    Feedback(304, 104, 204, 404, 2, Some("Could be better."), "2023-09-13T16:45:00Z")
  ]
}
