/** The Customer record: three nullable String fields updated in place through setters. */
module CustomerDto {
  import opened Wrappers

  /** The three fields of a Customer, as a value. */
  datatype CustomerState = CustomerState(name: Option<string>, address: Option<string>, city: Option<string>)

  /** A String as string concatenation renders it: "null" for a null reference. */
  function Render(s: Option<string>): string {
    if s.Some? then s.value else "null"
  }

  /** Customer.toString on the field values. */
  function RenderCustomer(st: CustomerState): (r: string)
    ensures |r| == 38 + |Render(st.name)| + |Render(st.address)| + |Render(st.city)|
    ensures r[..15] == "Customer{name='" && r[|r| - 2..] == "'}"
    ensures r[15..15 + |Render(st.name)|] == Render(st.name)
    ensures r[15 + |Render(st.name)|..27 + |Render(st.name)|] == "', address='"
    ensures var a := 27 + |Render(st.name)|; r[a..a + |Render(st.address)|] == Render(st.address)
    ensures var a := 27 + |Render(st.name)| + |Render(st.address)|; r[a..a + 9] == "', city='"
    ensures var c := 36 + |Render(st.name)| + |Render(st.address)|; r[c..c + |Render(st.city)|] == Render(st.city)
  {
    var n, a, c := Render(st.name), Render(st.address), Render(st.city);
    var r := "Customer{name='" + n + "', address='" + a + "', city='" + c + "'}";
    assert r[15..15 + |n|] == n by {
      assert forall k :: 0 <= k < |n| ==> r[15 + k] == n[k];
    }
    r
  }

  /** A customer nobody has set anything on renders its fields as null. */
  lemma RenderEmptyCustomer()
    ensures RenderCustomer(CustomerState(None, None, None)) == "Customer{name='null', address='null', city='null'}"
  {
  }

  class Customer {
    var name: Option<string>
    var address: Option<string>
    var city: Option<string>

    function State(): CustomerState
      reads this
    {
      CustomerState(name, address, city)
    }

    /** Customer(): all three fields null. */
    constructor ()
      ensures name == None && address == None && city == None
    {
      name, address, city := None, None, None;
    }

    /** Customer(name, address, city): each field from the argument in the same position. */
    constructor Create(name: Option<string>, address: Option<string>, city: Option<string>)
      ensures this.name == name && this.address == address && this.city == city
    {
      this.name := name;
      this.address := address;
      this.city := city;
    }

    method GetName() returns (r: Option<string>)
      ensures r == name
    {
      r := name;
    }

    method SetName(name: Option<string>)
      modifies this`name
      ensures this.name == name && address == old(address) && city == old(city)
    {
      this.name := name;
    }

    method GetAddress() returns (r: Option<string>)
      ensures r == address
    {
      r := address;
    }

    method SetAddress(address: Option<string>)
      modifies this`address
      ensures this.address == address && name == old(name) && city == old(city)
    {
      this.address := address;
    }

    method GetCity() returns (r: Option<string>)
      ensures r == city
    {
      r := city;
    }

    method SetCity(city: Option<string>)
      modifies this`city
      ensures this.city == city && name == old(name) && address == old(address)
    {
      this.city := city;
    }

    /** Customer.toString. */
    function ToString(): (r: string)
      reads this
      ensures r == RenderCustomer(State())
    {
      RenderCustomer(State())
    }
  }

  /** A getter returns what the matching setter stored last, whatever was set on the other fields since. */
  method SetThenGet(c: Customer, n: Option<string>, a: Option<string>, t: Option<string>)
    returns (gotName: Option<string>, gotAddress: Option<string>, gotCity: Option<string>)
    modifies c
    ensures gotName == n && gotAddress == a && gotCity == t
  {
    c.SetName(n);
    c.SetCity(t);
    c.SetAddress(a);
    gotName := c.GetName();
    gotAddress := c.GetAddress();
    gotCity := c.GetCity();
  }
}
