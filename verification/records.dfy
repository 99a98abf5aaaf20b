/** The documents of the four collections, reduced to the fields the handlers
    read or write, and the result type the handlers' error paths use. */
module Records {

  datatype Option<T> = None | Some(value: T)

  /** A handler either produces its value or answers with an error. */
  datatype Result<T, E> = Ok(value: T) | Err(error: E)

  /** An expiry date as the donor typed it (`text`, what is stored and echoed
      back) together with the calendar day it denotes when parsed as a date
      (`day`, what the search compares). */
  datatype ExpiryDate = ExpiryDate(text: string, day: int)

  /** A medicine donation. `email` is optional in its schema. */
  datatype Donation = Donation(
    name: string,
    email: Option<string>,
    phone: string,
    medicine: string,
    quantity: int,
    expiry: ExpiryDate,
    address: string)
  {
    predicate OwnedBy(owner: string) { email == Some(owner) }
  }

  /** A monetary donation; only `paymentStatus == "completed"` counts toward totals. */
  datatype MoneyDonation = MoneyDonation(
    name: string,
    email: string,
    amount: int,
    paymentMethod: string,
    paymentStatus: string)
  {
    predicate OwnedBy(owner: string) { email == owner }
  }

  /** A request for a medicine. */
  datatype MedicineRequest = MedicineRequest(
    name: string,
    email: string,
    medicine: string,
    quantity: int,
    reason: string,
    status: string)
  {
    predicate OwnedBy(owner: string) { email == owner }
  }

  /** A user account; `password` holds the stored password hash, if any. */
  datatype User = User(
    id: nat,
    name: string,
    email: string,
    mobile: string,
    address: string,
    password: Option<string>)
}
