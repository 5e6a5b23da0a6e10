/** A row of REG_PROPERTY as read for re-encryption: four values fixed when the row is
    read, and the re-encrypted value filled in later. */
module Registry {
  import opened Wrappers

  /** Java strings may be null; None stands for null. */
  class RegistryProperty {
    const regId: Option<string>
    const regName: Option<string>
    const regValue: Option<string>
    const regTenantId: Option<string>
    var newRegValue: Option<string>

    constructor (regId: Option<string>, regName: Option<string>, regValue: Option<string>, regTenantId: Option<string>)
      ensures GetRegId() == regId && GetRegName() == regName
      ensures GetRegValue() == regValue && GetRegTenantId() == regTenantId
      ensures GetNewRegValue() == None
    {
      this.regId := regId;
      this.regName := regName;
      this.regValue := regValue;
      this.regTenantId := regTenantId;
      newRegValue := None;
    }

    function GetRegId(): Option<string> { regId }

    function GetRegName(): Option<string> { regName }

    function GetRegValue(): Option<string> { regValue }

    function GetRegTenantId(): Option<string> { regTenantId }

    function GetNewRegValue(): Option<string>
      reads this
    {
      newRegValue
    }

    /** Records the re-encrypted value. The four values read from the row are `const`, so
        neither this nor anything else can change them after construction. */
    method SetNewRegValue(newRegValue: Option<string>)
      modifies this`newRegValue
      ensures GetNewRegValue() == newRegValue
    {
      this.newRegValue := newRegValue;
    }
  }
}
