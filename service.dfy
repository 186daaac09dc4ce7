/**
 * A bookable service (model/Service.java): a base price, a vendor type and a map of extra
 * properties from which `calculateCost` adds an hourly or a per-guest surcharge.
 */
module Services {
  import opened Wrappers
  import opened VendorModel

  const MinInt: int := -0x8000_0000
  const MaxInt: int := 0x7FFF_FFFF

  /** A Java `int`: what `Integer.parseInt` returns for a stored property. */
  type Int32 = x: int | MinInt <= x <= MaxInt

  /** Java's `int` multiplication result: the product taken modulo 2^32, as a signed value. */
  function Wrap32(x: int): (r: Int32)
    ensures (r - x) % 0x1_0000_0000 == 0
    ensures MinInt <= x <= MaxInt ==> r == x
  {
    (x - MinInt) % 0x1_0000_0000 + MinInt
  }

  const HourlyRate: int := 50
  const GuestRate: int := 25

  /** The property `calculateCost` reads for a service type, if any. */
  function SurchargeKey(serviceType: Option<VendorType>): Option<(string, int)> {
    if serviceType == Some(Photography) then Some(("hours", HourlyRate))
    else if serviceType == Some(Catering) then Some(("guestCount", GuestRate))
    else None
  }

  /** `map.get(name)`: the stored value, or `None` for an absent key. */
  function Lookup<V>(m: map<string, V>, key: string): (r: Option<V>)
    ensures r.Some? <==> key in m
    ensures r.Some? ==> r.value == m[key]
  {
    if key in m then Some(m[key]) else None
  }

  /**
   * `calculateCost` as written: the base price plus, for photography, 50 per hour and, for
   * catering, 25 per guest, where the count times the rate is an `int` product and wraps.
   */
  function CostAsWritten(basePrice: real, serviceType: Option<VendorType>, props: map<string, Int32>): real {
    match SurchargeKey(serviceType)
    case None => basePrice
    case Some((key, rate)) =>
      if key in props then basePrice + Wrap32((props[key] as int) * rate) as real else basePrice
  }

  /** The cost the surcharge rule means: the same, with the product taken without wrap-around. */
  function Cost(basePrice: real, serviceType: Option<VendorType>, props: map<string, Int32>): (cost: real)
    ensures SurchargeKey(serviceType).None? ==> cost == basePrice
    ensures serviceType == Some(Photography) ==>
      cost == basePrice + if "hours" in props then (50 * (props["hours"] as int)) as real else 0.0
    ensures serviceType == Some(Catering) ==>
      cost == basePrice + if "guestCount" in props then (25 * (props["guestCount"] as int)) as real else 0.0
  {
    match SurchargeKey(serviceType)
    case None => basePrice
    case Some((key, rate)) =>
      if key in props then basePrice + ((props[key] as int) * rate) as real else basePrice
  }

  class Service {
    var serviceId: Option<string>
    var name: Option<string>
    var description: Option<string>
    var basePrice: real
    var serviceType: Option<VendorType>
    var additionalProperties: map<string, Int32>

    constructor (serviceId: Option<string>, name: Option<string>, description: Option<string>, basePrice: real)
      ensures this.serviceId == serviceId && this.name == name && this.description == description
      ensures this.basePrice == basePrice && serviceType == None && additionalProperties == map[]
    {
      this.serviceId := serviceId;
      this.name := name;
      this.description := description;
      this.basePrice := basePrice;
      serviceType := None;
      additionalProperties := map[];
    }

    method SetServiceType(serviceType: Option<VendorType>)
      modifies this`serviceType
      ensures this.serviceType == serviceType
    {
      this.serviceType := serviceType;
    }

    /** `put`: inserts the key or overwrites its value; every other key is kept. */
    method SetAdditionalProperty(name: string, value: Int32)
      modifies this`additionalProperties
      ensures additionalProperties == old(additionalProperties)[name := value]
    {
      additionalProperties := additionalProperties[name := value];
    }

    function GetAdditionalProperty(name: string): (r: Option<Int32>)
      reads this
      ensures r.Some? <==> name in additionalProperties
      ensures r.Some? ==> r.value == additionalProperties[name]
    {
      Lookup(additionalProperties, name)
    }

    /** Reads the fields into a local accumulator and changes nothing. */
    method CalculateCost() returns (cost: real)
      ensures cost == CostAsWritten(basePrice, serviceType, additionalProperties)
      ensures (forall k :: k in additionalProperties ==> -42949672 <= additionalProperties[k] <= 42949672) ==>
        cost == Cost(basePrice, serviceType, additionalProperties)
    {
      cost := basePrice;
      if serviceType == Some(Photography) {
        if "hours" in additionalProperties {
          var hours: int := additionalProperties["hours"];
          cost := cost + Wrap32(hours * 50) as real;
        }
      } else if serviceType == Some(Catering) {
        if "guestCount" in additionalProperties {
          var guestCount: int := additionalProperties["guestCount"];
          cost := cost + Wrap32(guestCount * 25) as real;
        }
      }
      ForSmallCountsNoWrap(basePrice, serviceType, additionalProperties);
    }
  }

  /** The written cost and the intended one agree as long as the surcharge fits in an `int`. */
  lemma ForSmallCountsNoWrap(basePrice: real, serviceType: Option<VendorType>, props: map<string, Int32>)
    ensures (forall k :: k in props ==> -42949672 <= props[k] <= 42949672) ==>
      CostAsWritten(basePrice, serviceType, props) == Cost(basePrice, serviceType, props)
  {
  }

  /** `put` then `get` of the same key answers the new value; other keys answer as before. */
  lemma SetThenGet<V>(m: map<string, V>, key: string, value: V, other: string)
    ensures Lookup(m[key := value], key) == Some(value)
    ensures other != key ==> Lookup(m[key := value], other) == Lookup(m, other)
  {
  }

  /** A type other than photography or catering costs its base price, whatever the properties. */
  lemma OtherTypesCostBasePrice(basePrice: real, serviceType: Option<VendorType>, props: map<string, Int32>)
    requires serviceType != Some(Photography) && serviceType != Some(Catering)
    ensures CostAsWritten(basePrice, serviceType, props) == basePrice
    ensures Cost(basePrice, serviceType, props) == basePrice
  {
  }

  /** Photography reads only "hours" and catering only "guestCount"; any other key is ignored. */
  lemma CostReadsOnlyItsKey(basePrice: real, serviceType: Option<VendorType>, props: map<string, Int32>,
                            key: string, value: Int32)
    requires SurchargeKey(serviceType).Some? ==> key != SurchargeKey(serviceType).value.0
    ensures CostAsWritten(basePrice, serviceType, props[key := value]) == CostAsWritten(basePrice, serviceType, props)
    ensures Cost(basePrice, serviceType, props[key := value]) == Cost(basePrice, serviceType, props)
  {
  }

  /** Photography ignores a guest count and catering ignores hours. */
  lemma SurchargesAreIndependent(basePrice: real, props: map<string, Int32>, value: Int32)
    ensures CostAsWritten(basePrice, Some(Photography), props["guestCount" := value])
         == CostAsWritten(basePrice, Some(Photography), props)
    ensures CostAsWritten(basePrice, Some(Catering), props["hours" := value])
         == CostAsWritten(basePrice, Some(Catering), props)
  {
    CostReadsOnlyItsKey(basePrice, Some(Photography), props, "guestCount", value);
    CostReadsOnlyItsKey(basePrice, Some(Catering), props, "hours", value);
  }

  /** With the intended arithmetic, more hours or more guests never cost less, nor less than the base price. */
  lemma CostIsMonotone(basePrice: real, serviceType: Option<VendorType>, props: map<string, Int32>,
                       key: string, fewer: Int32, more: Int32)
    requires SurchargeKey(serviceType).Some? ==> key == SurchargeKey(serviceType).value.0
    requires 0 <= fewer <= more
    ensures Cost(basePrice, serviceType, props[key := fewer]) <= Cost(basePrice, serviceType, props[key := more])
    ensures Cost(basePrice, serviceType, props[key := fewer]) >= basePrice
  {
  }

  /**
   * 42949673 hours of photography: the `int` product 2147483650 wraps to -2147483646, so the
   * service costs less than nothing, and more hours cost less than fewer.
   */
  lemma HourlySurchargeWraps()
    ensures CostAsWritten(0.0, Some(Photography), map["hours" := 42949673]) == -2147483646.0
    ensures CostAsWritten(0.0, Some(Photography), map["hours" := 42949673])
          < CostAsWritten(0.0, Some(Photography), map["hours" := 1])
    ensures Cost(0.0, Some(Photography), map["hours" := 42949673]) == 2147483650.0
  {
    assert Wrap32(42949673 * 50) == -2147483646;
  }
}
