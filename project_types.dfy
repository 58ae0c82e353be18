/**
 * The domain types of the shared StrafenProjectTypes library that this package
 * converts to and from. Only their data is needed here; the library itself is
 * not part of this model.
 */
module ProjectTypes {
  import Uuids
  import Dates

  /** `Importance`. */
  datatype Importance = High | Medium | Low

  /** `TimePeriodUnit`. */
  datatype TimePeriodUnit = Day | Month | Year

  /** What an `IAmount` exposes: whole units and hundredths. */
  datatype Amount = Amount(value: nat, subUnitValue: nat)

  /** What an `ITimePeriod` exposes. */
  datatype TimePeriod = TimePeriod(value: nat, unit: TimePeriodUnit)

  /** What an `ILatePaymentInterest` exposes. */
  datatype LatePaymentInterest = LatePaymentInterest(
    interestFreePeriod: TimePeriod,
    interestPeriod: TimePeriod,
    interestRate: real,
    compoundInterest: bool)

  /** What an `IReasonTemplate` exposes. */
  datatype ReasonTemplate = ReasonTemplate(
    id: Uuids.Uuid,
    reasonMessage: string,
    amount: Amount,
    importance: Importance)

  /** What an `ISignInData` exposes. */
  datatype SignInData = SignInData(admin: bool, signInDate: Dates.Date, userId: string)

  /** `Club`: what an `IClub` exposes. */
  datatype Club = Club(
    id: Uuids.Uuid,
    identifier: string,
    name: string,
    regionCode: string,
    inAppPaymentActive: bool,
    personUserIds: map<string, Uuids.Uuid>)

  /** `Deletable`: an item, or the id of an item that was deleted. */
  datatype Deletable<T, Id> = Item(value: T) | Deleted(id: Id)
}
