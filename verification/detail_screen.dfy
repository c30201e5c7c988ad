/** The supplier detail screen: step 1 shows the supplier, step 2 is the
    order form. The form prices the order from the supplier's base price,
    the chosen volume, water type and delivery slot, and submits an order
    row once the customer's name, phone and address are filled in. */
module DetailScreen {
  import opened Remote

  /** The volumes offered by the volume selector, in litres. */
  const VolumeOptions: seq<int> := [2500, 5000, 10000]

  /** The water types offered by the type selector. */
  const WaterTypes: seq<string> := ["Potable", "Construction"]

  const StandardSlot := "Standard"
  const ExpressSlot := "Express"

  /** The volume multiplier applied to the base price. */
  function Multiplier(volume: int): real
  {
    var multiplier := 1.0;
    var multiplier := if volume == 5000 then 1.5 else multiplier;
    var multiplier := if volume == 10000 then 2.5 else multiplier;
    multiplier
  }

  /** `calculateTotal`: multiplier first, then the Construction discount and
      the Express surcharge, then `Math.floor`. No clamping: the total may be
      negative. */
  function CalculateTotal(basePrice: real, volume: int, waterType: string, slot: string): (t: int)
    ensures var raw := basePrice * Multiplier(volume)
                       - (if waterType == "Construction" then 10.0 else 0.0)
                       + (if slot == ExpressSlot then 20.0 else 0.0);
            t as real <= raw < t as real + 1.0
  {
    var total := basePrice * Multiplier(volume);
    var total := if waterType == "Construction" then total - 10.0 else total;
    var total := if slot == ExpressSlot then total + 20.0 else total;
    total.Floor
  }

  /** The multiplier table: 1.5 for 5000 L, 2.5 for 10000 L, 1 for any other
      volume, 2500 L included. */
  lemma MultiplierTable(volume: int)
    ensures Multiplier(5000) == 1.5 && Multiplier(10000) == 2.5
    ensures volume != 5000 && volume != 10000 ==> Multiplier(volume) == 1.0
    ensures Multiplier(2500) == 1.0
  {
  }

  /** Construction water costs exactly 10 less than potable water. */
  lemma ConstructionSubtractsTen(basePrice: real, volume: int, slot: string)
    ensures CalculateTotal(basePrice, volume, "Construction", slot)
         == CalculateTotal(basePrice, volume, "Potable", slot) - 10
  {
  }

  /** The Express slot costs exactly 20 more than the standard slot. */
  lemma ExpressAddsTwenty(basePrice: real, volume: int, waterType: string)
    ensures CalculateTotal(basePrice, volume, waterType, ExpressSlot)
         == CalculateTotal(basePrice, volume, waterType, StandardSlot) + 20
  {
  }

  /** Nothing clamps the total: a cheap supplier's construction water has a
      negative total. */
  lemma TotalCanBeNegative()
    ensures CalculateTotal(4.0, 2500, "Construction", StandardSlot) == -6
  {
  }

  /** The worked example: 5000 L of potable water at base price 2 costs 3. */
  lemma ExampleFiveThousandLitres()
    ensures CalculateTotal(2.0, 5000, "Potable", StandardSlot) == 3
  {
  }

  /** With a non-negative base price, a larger offered volume never costs
      less. */
  lemma TotalMonotoneInVolume(basePrice: real, waterType: string, slot: string)
    requires basePrice >= 0.0
    ensures CalculateTotal(basePrice, 2500, waterType, slot) <= CalculateTotal(basePrice, 5000, waterType, slot)
    ensures CalculateTotal(basePrice, 5000, waterType, slot) <= CalculateTotal(basePrice, 10000, waterType, slot)
  {
  }

  /** The row inserted into the `orders` table. */
  datatype OrderRow = OrderRow(
    customerName: string,
    customerPhone: string,
    deliveryAddress: string,
    supplierId: string,
    volume: int,
    waterType: string,
    totalPrice: int,
    deliverySlot: string,
    status: string)

  /** What a press of "Confirm Order" does. */
  datatype ConfirmEffect =
    | Ignored                 // the button is disabled while the order is pending
    | MissingInfo(alert: Alert)
    | Submitted(row: OrderRow)

  const MissingInfoAlert := Alert("Missing Info", "Please fill in all details.")

  /** The required-field gate: the insert is attempted only when the name,
      phone and address are all filled in. */
  predicate ReadyToSubmit(name: string, phone: string, address: string)
  {
    name != "" && phone != "" && address != ""
  }

  /** The screen's state. `step` is 1 (supplier profile) or 2 (order form);
      `pending` is the order mutation's in-flight flag. */
  class OrderForm {
    const supplier: Supplier
    var step: int
    var address: string
    var phone: string
    var name: string
    var volume: int
    var waterType: string
    var slot: string
    var pending: bool

    /** The selectors only offer the listed volumes and water types, and no
        control changes the delivery slot. */
    ghost predicate Valid()
      reads this
    {
      (step == 1 || step == 2) &&
      volume in VolumeOptions &&
      waterType in WaterTypes &&
      slot == StandardSlot
    }

    /** `totalPrice`, recomputed on every render. */
    function TotalPrice(): int
      reads this
    {
      CalculateTotal(supplier.basePrice, volume, waterType, slot)
    }

    constructor (supplier: Supplier)
      ensures Valid()
      ensures this.supplier == supplier && step == 1 && !pending
      ensures address == "" && phone == "" && name == ""
      ensures volume == 5000 && waterType == "Potable" && slot == StandardSlot
    {
      this.supplier := supplier;
      step := 1;
      address, phone, name := "", "", "";
      volume := 5000;
      waterType := "Potable";
      slot := StandardSlot;
      pending := false;
    }

    /** "Start Order Request", drawn only on the supplier profile (step 1):
        the only way to the order form. */
    method StartOrderRequest()
      requires Valid() && step == 1
      modifies this`step
      ensures Valid() && step == 2
    {
      step := 2;
    }

    /** The back arrow of the order form (step 2): the only way back to
        step 1. */
    method Back()
      requires Valid() && step == 2
      modifies this`step
      ensures Valid() && step == 1
    {
      step := 1;
    }

    /** A press on one of the volume options of the order form. */
    method SelectVolume(v: int)
      requires Valid() && step == 2 && v in VolumeOptions
      modifies this`volume
      ensures Valid() && volume == v
    {
      volume := v;
    }

    /** A press on one of the water type options of the order form. */
    method SelectWaterType(t: string)
      requires Valid() && step == 2 && t in WaterTypes
      modifies this`waterType
      ensures Valid() && waterType == t
    {
      waterType := t;
    }

    /** The three text inputs of the order form. */
    method EditDetails(name: string, phone: string, address: string)
      requires Valid() && step == 2
      modifies this`name, this`phone, this`address
      ensures Valid()
      ensures this.name == name && this.phone == phone && this.address == address
    {
      this.name, this.phone, this.address := name, phone, address;
    }

    /** The "Confirm Order" button of the order form: disabled while
        pending, otherwise the required-field gate decides between the
        "Missing Info" alert and starting the insert of a PENDING order
        priced at the displayed total. */
    method PressConfirm() returns (effect: ConfirmEffect)
      requires Valid() && step == 2
      modifies this`pending
      ensures Valid()
      ensures old(pending) ==> effect == Ignored && pending
      ensures !old(pending) && !ReadyToSubmit(name, phone, address) ==>
                effect == MissingInfo(MissingInfoAlert) && !pending
      ensures !old(pending) && ReadyToSubmit(name, phone, address) ==> effect.Submitted? && pending
      ensures effect.Submitted? ==>
                effect.row == OrderRow(name, phone, address, supplier.id, volume, waterType,
                                       TotalPrice(), slot, "PENDING")
    {
      if pending {
        effect := Ignored;
      } else if name == "" || phone == "" || address == "" {
        effect := MissingInfo(MissingInfoAlert);
      } else {
        pending := true;
        effect := Submitted(OrderRow(name, phone, address, supplier.id, volume, waterType,
                                     TotalPrice(), slot, "PENDING"));
      }
    }

    /** The insert resolves: the button is enabled again and the outcome is
        reported; on success the alert's OK leads back to "Home". */
    method Settle(reply: Reply<()>) returns (alert: Alert)
      requires Valid() && pending
      modifies this`pending
      ensures Valid() && !pending
      ensures reply.Ok? ==> alert == Alert("Order Placed!", "The supplier has received your request.")
      ensures reply.Err? ==> alert == Alert("Error", reply.message)
    {
      pending := false;
      match reply
      case Ok(_) =>
        alert := Alert("Order Placed!", "The supplier has received your request.");
      case Err(message) =>
        alert := Alert("Error", message);
    }
  }

  /** A submitted order always carries the PENDING status and the total
      computed from the form's current volume, type and slot; with the
      slot fixed at Standard that total ignores any surcharge. */
  lemma SubmittedRowIsPriced(form: OrderForm, row: OrderRow)
    requires form.Valid()
    requires row == OrderRow(form.name, form.phone, form.address, form.supplier.id, form.volume,
                             form.waterType, form.TotalPrice(), form.slot, "PENDING")
    ensures row.status == "PENDING" && row.deliverySlot == StandardSlot
    ensures row.volume in VolumeOptions && row.waterType in WaterTypes
    ensures row.totalPrice == CalculateTotal(form.supplier.basePrice, row.volume, row.waterType, StandardSlot)
    ensures row.totalPrice as real <= form.supplier.basePrice * Multiplier(row.volume) < row.totalPrice as real + 11.0
  {
  }
}
