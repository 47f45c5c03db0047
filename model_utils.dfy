/**
 * Helpers shared by the models: the role check of option values and the
 * relationships that point at an object of any model through an id column and a type
 * column.
 */
module ModelUtils {
  import opened Wrappers

  /** An option value of a model attribute, with its role. */
  datatype OptionValue = OptionValue(id: int, role: string)

  /**
   * `validate_option`: an absent option, or one with the desired role, is returned as
   * it is; an option of another role is refused.
   */
  function ValidateOption(model: string, attribute: string, option: Option<OptionValue>, desiredRole: string)
    : (r: Result<Option<OptionValue>>)
    ensures r.Success? <==> option.None? || option.value.role == desiredRole
    ensures r.Success? ==> r.value == option
  {
    if option.Some? && option.value.role != desiredRole then
      Failure("Invalid value for attribute " + model + "." + attribute + ". Expected option with role "
              + desiredRole + ", received role " + option.value.role + ".")
    else Success(option)
  }

  /** An object of some model: its id and its class name. */
  datatype Instance = Instance(id: int, className: string)

  /** A backref name template such as "{}_reviewable": the text around the placeholder. */
  datatype BackrefFormat = BackrefFormat(prefix: string, suffix: string)

  function BackrefName(format: BackrefFormat, typeName: string): string
  {
    format.prefix + typeName + format.suffix
  }

  /** An object holding a polymorphic relationship: its id and type columns and its backref attributes. */
  class PolymorphicHolder {
    var refId: Option<int>
    var refType: Option<string>
    var backrefs: map<string, Instance>

    constructor ()
      ensures refId == None && refType == None && backrefs == map[]
    {
      refId := None;
      refType := None;
      backrefs := map[];
    }

    /**
     * `PolymorphicRelationship.__set__`: `None` clears both columns and leaves the
     * backrefs alone; an object stores its id, its class name, and itself under the
     * backref named after that class.
     */
    method Set(format: BackrefFormat, value: Option<Instance>)
      modifies this
      ensures value.None? ==> refId == None && refType == None && backrefs == old(backrefs)
      ensures value.Some? ==>
                refId == Some(value.value.id) && refType == Some(value.value.className)
                && backrefs == old(backrefs)[BackrefName(format, value.value.className) := value.value]
    {
      if value.None? {
        refId := None;
        refType := None;
      } else {
        refId := Some(value.value.id);
        refType := Some(value.value.className);
        backrefs := backrefs[BackrefName(format, refType.value) := value.value];
      }
    }
  }

  /** The reference a JSON body gives for a relationship field. */
  datatype JsonRef = JsonRef(typeName: string, id: int)

  /** `INSTANCE_TYPE`: the required class's name and the class names that are instances of it. */
  datatype InstanceType = InstanceType(name: string, members: set<string>)

  /**
   * `JsonPolymorphicRelationship.__call__`: `fieldName` is the class attribute holding
   * the relationship (None when no attribute holds it), `referenced` the objects the
   * request refers to. With a required type, an object that is absent or of another
   * type is refused; otherwise the referenced object, or nothing, is returned.
   */
  function JsonPolymorphicCall(
    fieldName: Option<string>,
    jsonObj: map<string, JsonRef>,
    referenced: map<JsonRef, Instance>,
    instanceType: Option<InstanceType>): (r: Result<Option<Instance>>)
    ensures fieldName.None? ==> r == Success(None)
    ensures fieldName.Some? && fieldName.value !in jsonObj ==> r.Failure?
    ensures fieldName.Some? && fieldName.value in jsonObj ==>
              var ref := jsonObj[fieldName.value];
              var instance := if ref in referenced then Some(referenced[ref]) else None;
              (r.Failure? <==> instanceType.Some? && (instance.None? || instance.value.className !in instanceType.value.members))
              && (r.Success? ==> r.value == instance)
  {
    if fieldName.None? then Success(None)
    else if fieldName.value !in jsonObj then Failure("KeyError: '" + fieldName.value + "'")
    else
      var ref := jsonObj[fieldName.value];
      if ref !in referenced then
        if instanceType.Some? then Failure("AttributeError: 'NoneType' object has no attribute 'type'")
        else Success(None)
      else
        var instance := referenced[ref];
        if instanceType.Some? && instance.className !in instanceType.value.members then
          Failure(instance.className + " is not of " + instanceType.value.name + " type.")
        else Success(Some(instance))
  }
}
