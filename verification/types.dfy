/** The records and enumerations shared by every part of the resort
    manager: transactions, bookings, guest identity data and the
    enumerations they draw on (types.ts). */
module Types {

  /** An optional value: an absent object field, `undefined` or `null`. */
  datatype Option<+T> = None | Some(value: T) {
    function GetOr(default: T): T {
      match this
      case Some(v) => v
      case None => default
    }
  }

  /** A JavaScript number restricted to the integers, plus `NaN`, which
      `parseFloat` and date arithmetic produce on malformed input. */
  datatype Num = Val(v: int) | NaN {
    /** JavaScript truthiness: `0` and `NaN` are falsy. */
    predicate Truthy() {
      Val? && v != 0
    }
  }

  datatype TransactionType = Income | Expense

  function TransactionTypeLabel(t: TransactionType): string {
    match t
    case Income => "INCOME"
    case Expense => "EXPENSE"
  }

  /** The customer types of the enumeration, plus `Unlisted` for a raw
      string cast into the field (the bulk importer stores "BOOKING"). */
  datatype CustomerType = WalkIn | BookingCustomer | CheckInCustomer | Unlisted(raw: string)

  function CustomerTypeLabel(c: CustomerType): string {
    match c
    case WalkIn => "Walk-in"
    case BookingCustomer => "Booking"
    case CheckInCustomer => "Check-in"
    case Unlisted(s) => s
  }

  /** The thirteen ledger categories: four income, nine expense. */
  datatype Category =
    | RoomRevenue | FoodBeverage | SpaService | OtherIncome
    | Utilities | StaffSalary | Marketing | Maintenance | Supplies
    | TaxFee | SoftwareSubscription | OfficeSupplies | CleaningSupplies

  /** The string value each category carries in the ledger. */
  function CategoryLabel(c: Category): string {
    match c
    case RoomRevenue => "ค่าห้องพัก"
    case FoodBeverage => "อาหารและเครื่องดื่ม"
    case SpaService => "สปาและนวด"
    case OtherIncome => "รายได้อื่นๆ"
    case Utilities => "ค่าสาธารณูปโภค (น้ำ/ไฟ/เน็ต)"
    case StaffSalary => "เงินเดือนและค่าแรง"
    case Marketing => "การตลาด/ค่าคอมมิชชั่น OTA"
    case Maintenance => "ค่าซ่อมบำรุง"
    case Supplies => "วัสดุอุปกรณ์/เครื่องใช้"
    case TaxFee => "ภาษีและค่าธรรมเนียม"
    case SoftwareSubscription => "ค่าซอฟต์แวร์/แอปพลิเคชัน"
    case OfficeSupplies => "วัสดุสำนักงาน"
    case CleaningSupplies => "วัสดุทำความสะอาด"
  }

  /** Every category, in declaration order (`Object.values(Category)`). */
  const AllCategories: seq<Category> := [
    RoomRevenue, FoodBeverage, SpaService, OtherIncome,
    Utilities, StaffSalary, Marketing, Maintenance, Supplies,
    TaxFee, SoftwareSubscription, OfficeSupplies, CleaningSupplies
  ]

  /** The enumeration has exactly thirteen members and lists each once. */
  lemma AllCategoriesComplete(c: Category)
    ensures c in AllCategories
    ensures |AllCategories| == 13
    ensures forall i, j :: 0 <= i < j < |AllCategories| ==> AllCategories[i] != AllCategories[j]
  {
  }

  /** Distinct categories carry distinct strings, so a category can be
      recovered from its string value. */
  lemma CategoryLabelInjective(c: Category, d: Category)
    ensures CategoryLabel(c) == CategoryLabel(d) ==> c == d
  {
  }

  /** Identity data read from a Thai ID card (or typed in). */
  datatype GuestData = GuestData(
    idNumber: string,
    title: string,
    firstNameTH: string,
    lastNameTH: string,
    firstNameEN: string,
    lastNameEN: string,
    address: string,
    dob: string,
    issueDate: string,
    expiryDate: string,
    religion: Option<string>,
    customerType: Option<CustomerType>,
    phone: Option<string>)

  /** A guest record holding only a Thai first name and a phone number;
      fields the source leaves undefined are empty strings here. */
  function NameOnlyGuest(name: string, phone: string, customerType: Option<CustomerType>): (g: GuestData)
    ensures g.firstNameTH == name && g.lastNameTH == "" && g.phone == Some(phone)
    ensures g.idNumber == "" && g.customerType == customerType
  {
    GuestData("", "", name, "", "", "", "", "", "", "", None, customerType, Some(phone))
  }

  /** One ledger entry. Dates are `YYYY-MM-DD` strings, money is an integer. */
  datatype Transaction = Transaction(
    id: string,
    date: string,
    txType: TransactionType,
    category: Category,
    amount: int,
    description: string,
    imageUrl: Option<string>,
    isReconciled: bool,
    pmsReferenceId: Option<string>,
    guestData: Option<GuestData>,
    customerType: Option<CustomerType>)

  /** A transaction as a form or scanner hands it over, before the ledger
      gives it an id (the source's `Omit<Transaction, 'id'>`). */
  function Draft(date: string, txType: TransactionType, category: Category, amount: int,
                 description: string, imageUrl: Option<string>, isReconciled: bool): (t: Transaction)
    ensures t.id == "" && t.date == date && t.txType == txType && t.category == category
    ensures t.amount == amount && t.description == description && t.imageUrl == imageUrl
    ensures t.isReconciled == isReconciled
    ensures t.pmsReferenceId == None && t.guestData == None && t.customerType == None
  {
    Transaction("", date, txType, category, amount, description, imageUrl, isReconciled, None, None, None)
  }

  datatype BookingStatus = Confirmed | CheckedOut | Pending | CheckedIn | Locked

  function StatusLabel(s: BookingStatus): string {
    match s
    case Confirmed => "confirmed"
    case CheckedOut => "checked_out"
    case Pending => "pending"
    case CheckedIn => "checked_in"
    case Locked => "locked"
  }

  /** A booking is active while it still holds the room ahead of arrival. */
  predicate IsActive(s: BookingStatus) {
    s == Confirmed || s == Pending || s == Locked
  }

  /** One room reservation. `lockedUntil` is the lock's expiry instant in
      milliseconds since the epoch. */
  datatype Booking = Booking(
    id: string,
    guestName: string,
    roomNumber: string,
    checkIn: string,
    checkOut: string,
    totalAmount: int,
    status: BookingStatus,
    guestDetails: Option<GuestData>,
    lockedUntil: Option<int>)
}
