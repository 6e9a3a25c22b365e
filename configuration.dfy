/**
  * Column settings of the table: FixedWidthTableConfiguration (a dictionary
  * from property name to its settings) and the fluent
  * FixedWidthTableConfigurationBuilder that fills it.
  */
module TableConfiguration {
  import opened Wrappers

  /** Alignment codes: negative is left, zero is centred, positive is right. */
  const LeftAlignment: int := -1

  /** An IFormatProvider, known only by its identity. */
  datatype FormatProvider = FormatProvider(id: nat)

  /** FixedWidthTableConfigurationProperty: `None` fields are the source's nulls. */
  datatype ColumnProperty = ColumnProperty(
    header: Option<string>,
    format: Option<string>,
    formatProvider: Option<FormatProvider>,
    alignment: int,
    total: bool)

  /** Dictionary.Add throws ArgumentException for a key that is already present. */
  datatype ConfigurationError = DuplicateName(name: string)

  /** The dictionary lookup of Get, on the dictionary's value. */
  function Lookup(properties: map<string, ColumnProperty>, name: string): Option<ColumnProperty> {
    if name in properties then Some(properties[name]) else None
  }

  class Configuration {
    var properties: map<string, ColumnProperty>

    constructor ()
      ensures properties == map[]
    {
      properties := map[];
    }

    /** Registers the settings of `name`; a name registered before is an error and changes nothing. */
    method Add(name: string, header: Option<string> := None, alignment: int := LeftAlignment,
               format: Option<string> := None, formatProvider: Option<FormatProvider> := None,
               total: bool := false)
      returns (outcome: Option<ConfigurationError>)
      modifies this
      ensures outcome.Some? <==> name in old(properties)
      ensures outcome.Some? ==> outcome == Some(DuplicateName(name)) && properties == old(properties)
      ensures outcome.None? ==>
        properties == old(properties)[name := ColumnProperty(header, format, formatProvider, alignment, total)]
      ensures outcome.None? ==> Get(name) == Some(ColumnProperty(header, format, formatProvider, alignment, total))
      ensures forall other | other != name :: Get(other) == old(Get(other))
    {
      if name in properties {
        return Some(DuplicateName(name));
      }
      properties := properties[name := ColumnProperty(header, format, formatProvider, alignment, total)];
      outcome := None;
    }

    /** The settings registered for `name`, or `None` when there are none. */
    function Get(name: string): (setting: Option<ColumnProperty>)
      reads this
      ensures setting.Some? <==> name in properties
      ensures setting.Some? ==> setting.value == properties[name]
    {
      Lookup(properties, name)
    }
  }

  /**
    * The shape of a selector's expression tree, as far as For looks at it: a
    * member access, a unary node (Convert, TypeAs, Negate, ...) around an
    * operand, or anything else.
    */
  datatype SelectorBody = Member(memberName: string) | Unary(operand: SelectorBody) | OtherExpression

  /**
    * The name For extracts from a selector: only a member access directly under
    * a unary node. A lambda `x => x.P` returning `object` has such a Convert node
    * exactly when `P` is of a value type.
    */
  function MemberName(body: SelectorBody): (name: Option<string>)
    ensures name.Some? <==> body.Unary? && body.operand.Member?
    ensures name.Some? ==> name.value == body.operand.memberName
  {
    match body
    case Unary(Member(m)) => Some(m)
    case _ => None
  }

  class Builder {
    const configuration: Configuration

    constructor ()
      ensures fresh(configuration)
      ensures configuration.properties == map[]
    {
      configuration := new Configuration();
    }

    /**
      * Registers settings for the member the selector names; when no name can be
      * extracted nothing is registered. A duplicate name is the error of Add.
      */
    method For(selector: SelectorBody, header: Option<string> := None, alignment: int := LeftAlignment,
               format: Option<string> := None, formatProvider: Option<FormatProvider> := None,
               total: bool := false)
      returns (outcome: Option<ConfigurationError>)
      modifies configuration
      ensures MemberName(selector).None? ==>
        outcome.None? && configuration.properties == old(configuration.properties)
      ensures MemberName(selector).Some? ==>
        var name := MemberName(selector).value;
        && (outcome.Some? <==> name in old(configuration.properties))
        && (outcome.Some? ==> outcome == Some(DuplicateName(name))
                              && configuration.properties == old(configuration.properties))
        && (outcome.None? ==>
              configuration.properties ==
              old(configuration.properties)[name := ColumnProperty(header, format, formatProvider, alignment, total)])
    {
      var name := MemberName(selector);
      outcome := None;
      if name.Some? {
        outcome := configuration.Add(name.value, header, alignment, format, formatProvider, total);
      }
    }
  }
}
