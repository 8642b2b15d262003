/** The fault value the simulator hands back to the SOAP endpoint. */
module SoapFaults {
  /**
   * A SOAP fault: the SOAP fault code, the fault string, a longer detail text and
   * whether a client may expect a retry to succeed. Every field is fixed when the
   * value is made; a datatype value cannot change afterwards.
   */
  datatype SoapFault = SoapFault(faultCode: string, faultString: string, faultDetail: string, isTransient: bool)
  {
    /** The exception message, which construction sets to the fault string. */
    function GetMessage(): string {
      faultString
    }
  }

  /** Construction keeps its four arguments, each getter returns one of them, and the message is the fault string. */
  lemma ConstructorStoresFields(code: string, str: string, detail: string, transient: bool)
    ensures var f := SoapFault(code, str, detail, transient);
      f.faultCode == code && f.faultString == str && f.faultDetail == detail &&
      f.isTransient == transient && f.GetMessage() == str
  {
  }
}
