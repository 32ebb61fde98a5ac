/** The donation card (frontend/components/FoodDonation.tsx): the meals the
    wasted units could make, the partner list with its labels, and the
    card's state — the partner a pickup was scheduled with and the partner
    whose details are expanded. The five-second reset timer is a method
    the timer calls. */
module FoodDonation {
  import opened Wrappers
  import opened Numeric

  datatype Partner = Partner(
    id: string,
    name: string,
    kind: string,
    distance: string,
    address: string,
    phone: string,
    hours: string,
    acceptsToday: bool,
    rating: real,
    mealsServed: string)

  /** `DONATION_PARTNERS` */
  const Partners: seq<Partner> := [
    Partner("1", "Feeding India Foundation", "ngo", "2.3 km", "B-45, Sector 18, Noida",
      "+91 98765 43210", "8 AM - 8 PM", true, 4.8, "50,000+"),
    Partner("2", "Akshaya Patra Kitchen", "ngo", "4.1 km", "Plot 12, Industrial Area, Phase II",
      "+91 98765 43211", "6 AM - 10 PM", true, 4.9, "1.8M daily"),
    Partner("3", "Robin Hood Army Hub", "foodbank", "1.8 km", "Community Center, Block C, Lajpat Nagar",
      "+91 98765 43212", "24/7", true, 4.7, "25,000+"),
    Partner("4", "Gurdwara Langar Seva", "shelter", "3.5 km", "Gurudwara Road, Sector 22",
      "+91 98765 43213", "5 AM - 11 PM", true, 5.0, "10,000+")
  ]

  /** Four partners with distinct ids, all accepting today, rated 4.7 to 5. */
  lemma PartnerListShape()
    ensures |Partners| == 4
    ensures forall i, j :: 0 <= i < j < |Partners| ==> Partners[i].id != Partners[j].id
    ensures forall i :: 0 <= i < |Partners| ==> Partners[i].acceptsToday && 4.7 <= Partners[i].rating <= 5.0
  {
    forall i, j | 0 <= i < j < |Partners|
      ensures Partners[i].id != Partners[j].id
    {
      assert Partners[i].id[0] != Partners[j].id[0];
    }
  }

  /** `Math.floor(wasteAmount * 0.8)`: four meals from every five units. */
  function EstimatedMeals(wasteAmount: int): (meals: int)
    ensures meals == (4 * wasteAmount) / 5
    ensures 0 <= wasteAmount ==> 0 <= meals <= wasteAmount
  {
    assert wasteAmount as real * 0.8 == (4 * wasteAmount) as real / 5 as real;
    FloorDiv(4 * wasteAmount, 5);
    Floor(wasteAmount as real * 0.8)
  }

  /** The "Potential Meals" figure. */
  predicate ShowsMeals(wasteAmount: int)
  {
    wasteAmount > 0
  }

  /** The impact banner. */
  predicate ShowsBanner(wasteAmount: int)
  {
    wasteAmount > 10
  }

  /** The banner only appears with the figure, and then promises at least
      eight meals; the figure alone may show zero meals. */
  lemma BannerImpliesMeals(wasteAmount: int)
    ensures ShowsBanner(wasteAmount) ==> ShowsMeals(wasteAmount) && EstimatedMeals(wasteAmount) >= 8
    ensures ShowsMeals(wasteAmount) ==> EstimatedMeals(wasteAmount) >= 0
    ensures EstimatedMeals(1) == 0
  {
  }

  /** More waste never means fewer meals. */
  lemma MealsMonotone(w: int, w': int)
    requires w <= w'
    ensures EstimatedMeals(w) <= EstimatedMeals(w')
  {
    assert 4 * w <= 4 * w';
  }

  /** `getTypeLabel` */
  function TypeLabel(kind: string): (shown: string)
    ensures kind == "ngo" ==> shown == "NGO"
    ensures kind == "shelter" ==> shown == "Shelter"
    ensures kind == "foodbank" ==> shown == "Food Bank"
    ensures kind !in {"ngo", "shelter", "foodbank"} ==> shown == kind
  {
    match kind
    case "ngo" => "NGO"
    case "shelter" => "Shelter"
    case "foodbank" => "Food Bank"
    case _ => kind
  }

  datatype TypeIcon = HeartPink | BuildingBlue | UsersGreen | HeartPlain

  /** `getTypeIcon`: a label and an icon for the same three kinds. */
  function TypeIconOf(kind: string): (icon: TypeIcon)
    ensures icon == HeartPlain <==> TypeLabel(kind) == kind
  {
    match kind
    case "ngo" => HeartPink
    case "shelter" => BuildingBlue
    case "foodbank" => UsersGreen
    case _ => HeartPlain
  }

  /** Every listed partner has one of the three known kinds. */
  lemma PartnersHaveKnownKinds(i: int)
    requires 0 <= i < |Partners|
    ensures TypeLabel(Partners[i].kind) in ["NGO", "Shelter", "Food Bank"]
    ensures TypeIconOf(Partners[i].kind) != HeartPlain
  {
  }

  class DonationCard {
    var selectedPartner: Option<Partner>
    var pickupScheduled: bool
    /** The id of the partner whose details are expanded. */
    var showDetails: Option<string>
    /** Whether the parent passed `onSchedulePickup`. */
    const hasCallback: bool
    /** The partners passed to `onSchedulePickup`, in order. */
    var pickups: seq<Partner>

    constructor(hasCallback: bool)
      ensures selectedPartner == None && !pickupScheduled && showDetails == None
      ensures this.hasCallback == hasCallback && pickups == []
    {
      selectedPartner, pickupScheduled, showDetails := None, false, None;
      this.hasCallback, pickups := hasCallback, [];
    }

    /** The success message shows. */
    predicate ShowsSuccess()
      reads this
    {
      pickupScheduled && selectedPartner.Some?
    }

    /** `handleSchedulePickup`: the partner is selected, the pickup marked
        scheduled, and the callback, if any, called once with it. */
    method SchedulePickup(partner: Partner)
      modifies this
      ensures selectedPartner == Some(partner) && pickupScheduled
      ensures pickups == old(pickups) + (if hasCallback then [partner] else [])
      ensures showDetails == old(showDetails)
      ensures ShowsSuccess()
    {
      selectedPartner := Some(partner);
      pickupScheduled := true;
      if hasCallback {
        pickups := pickups + [partner];
      }
    }

    /** A click on "Schedule Pickup": the button is disabled while a pickup
        is scheduled, so a second click does nothing. */
    method ClickSchedule(partner: Partner)
      modifies this
      ensures old(pickupScheduled) ==> selectedPartner == old(selectedPartner) && pickups == old(pickups)
      ensures !old(pickupScheduled) ==>
        selectedPartner == Some(partner) && pickupScheduled
        && pickups == old(pickups) + (if hasCallback then [partner] else [])
      ensures pickupScheduled && showDetails == old(showDetails)
    {
      if !pickupScheduled {
        SchedulePickup(partner);
      }
    }

    /** The timer five seconds after a pickup was scheduled. */
    method ResetPickup()
      modifies this
      ensures selectedPartner == None && !pickupScheduled && !ShowsSuccess()
      ensures showDetails == old(showDetails) && pickups == old(pickups)
    {
      pickupScheduled := false;
      selectedPartner := None;
    }

    /** A click on a partner row: the expanded row collapses, any other
        row expands in its place. */
    method ToggleDetails(id: string)
      modifies this
      ensures showDetails == (if old(showDetails) == Some(id) then None else Some(id))
      ensures selectedPartner == old(selectedPartner) && pickupScheduled == old(pickupScheduled) && pickups == old(pickups)
    {
      showDetails := if showDetails == Some(id) then None else Some(id);
    }
  }
}
