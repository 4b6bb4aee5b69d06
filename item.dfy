/** The Item record: seven annotated fields, their alias table, and the two constructors. */
module ItemDto {
  import opened Wrappers
  import opened JavaLang
  import opened Schema

  /**
   * The @ExcelColumn declarations of Item, in declaration order: every header name
   * with a trailing zero-width space first, then the clean name.
   */
  const ItemSchema: seq<FieldDecl> := [
    FieldDecl("name", StringType, ["Item Name\U{200B}", "Item Name"]),
    FieldDecl("unitPrice", DoubleType, ["Unit Price\U{200B}", "Unit Price"]),
    FieldDecl("quantity", IntType, ["Quantity\U{200B}", "Quantity"]),
    FieldDecl("unit", StringType, ["Unit of Measure\U{200B}", "Unit of Measure"]),
    FieldDecl("vatRate", StringType, ["VAT Rate\U{200B}", "VAT Rate"]),
    FieldDecl("account", StringType, ["Account\U{200B}", "Account"]),
    FieldDecl("batch", StringType, ["Batch\U{200B}", "Batch"])
  ]

  /** Every field declares exactly two aliases: the U+200B-suffixed name, then the clean name. */
  lemma ItemAliasesPairUp()
    ensures |ItemSchema| == 7
    ensures forall i :: 0 <= i < |ItemSchema| ==>
      |ItemSchema[i].aliases| == 2 && ItemSchema[i].aliases[0] == ItemSchema[i].aliases[1] + [ZeroWidthSpace]
  {
  }

  /** quantity is an int, unitPrice a double, the other five are Strings. */
  lemma ItemFieldTypes()
    ensures ItemSchema[1].ftype == DoubleType && ItemSchema[2].ftype == IntType
    ensures forall i :: 0 <= i < |ItemSchema| && i != 1 && i != 2 ==> ItemSchema[i].ftype == StringType
  {
  }

  class Item {
    var name: Option<string>
    var unitPrice: real
    var quantity: Int32
    var unit: Option<string>
    var vatRate: Option<string>
    var account: Option<string>
    var batch: Option<string>

    /** The fields in declaration order, as the mapper sees them. */
    function Values(): (vs: seq<Value>)
      reads this
      ensures |vs| == |ItemSchema|
      ensures forall i :: 0 <= i < |ItemSchema| ==> HasType(vs[i], ItemSchema[i].ftype)
    {
      [StrVal(name), DoubleVal(unitPrice), IntVal(quantity), StrVal(unit),
       StrVal(vatRate), StrVal(account), StrVal(batch)]
    }

    /** Item(): the Strings stay null, unitPrice 0.0, quantity 0. */
    constructor ()
      ensures name == None && unit == None && vatRate == None && account == None && batch == None
      ensures unitPrice == 0.0 && quantity == 0
      ensures Values() == Defaults(ItemSchema)
    {
      name, unitPrice, quantity, unit := None, 0.0, 0, None;
      vatRate, account, batch := None, None, None;
    }

    /** Item(name, unitPrice, quantity, unit, vatRate, account, batch): each field from its argument. */
    constructor Create(name: Option<string>, unitPrice: real, quantity: Int32, unit: Option<string>,
                       vatRate: Option<string>, account: Option<string>, batch: Option<string>)
      ensures this.name == name && this.unitPrice == unitPrice && this.quantity == quantity
      ensures this.unit == unit && this.vatRate == vatRate && this.account == account && this.batch == batch
    {
      this.name := name;
      this.unitPrice := unitPrice;
      this.quantity := quantity;
      this.unit := unit;
      this.vatRate := vatRate;
      this.account := account;
      this.batch := batch;
    }

    /** field.set(instance, v) on the i-th declared field: that field changes, no other does. */
    method SetField(i: nat, v: Value)
      requires i < |ItemSchema| && HasType(v, ItemSchema[i].ftype)
      modifies this
      ensures Values() == old(Values())[i := v]
    {
      match i
      case 0 => name := v.str;
      case 1 => unitPrice := v.doubleValue;
      case 2 => quantity := v.intValue;
      case 3 => unit := v.str;
      case 4 => vatRate := v.str;
      case 5 => account := v.str;
      case 6 => batch := v.str;
    }
  }
}
