/** The badge colour of a sale in the sales table: a case-insensitive lookup
    of the sale's status among the three the form offers. */
module StatusBadge {

  /** The three statuses the sale form offers, as the badge classes spell them. */
  const CompletadaClass: string := "completada"
  const PendienteClass: string := "pendiente"
  const CanceladaClass: string := "cancelada"

  /** Lower-casing of one character, for the ASCII letters. */
  function LowerChar(c: char): (r: char)
    ensures 'A' <= c <= 'Z' ==> r as int == c as int + 32
    ensures !('A' <= c <= 'Z') ==> r == c
    ensures !('A' <= r <= 'Z')
  {
    if 'A' <= c <= 'Z' then (c as int + 32) as char else c
  }

  /** `toLowerCase`, character by character. */
  function ToLower(s: string): (r: string)
    ensures |r| == |s|
    ensures forall i :: 0 <= i < |s| ==> r[i] == LowerChar(s[i])
  {
    if s == [] then [] else [LowerChar(s[0])] + ToLower(s[1..])
  }

  /** Lower-casing twice is lower-casing once. */
  lemma ToLowerIdempotent(s: string)
    ensures ToLower(ToLower(s)) == ToLower(s)
  {
  }

  /** `getStatusClass`: the lower-cased status when it is one of the three, and the empty class otherwise. */
  function StatusClass(estado: string): (r: string)
    ensures r == CompletadaClass || r == PendienteClass || r == CanceladaClass || r == ""
    ensures r != "" ==> r == ToLower(estado)
    ensures r == "" <==> ToLower(estado) != CompletadaClass && ToLower(estado) != PendienteClass && ToLower(estado) != CanceladaClass
  {
    var lowered := ToLower(estado);
    if lowered == CompletadaClass then CompletadaClass
    else if lowered == PendienteClass then PendienteClass
    else if lowered == CanceladaClass then CanceladaClass
    else ""
  }

  /** The class depends on the status only up to case: a lower-cased status gets the same class. */
  lemma StatusClassIgnoresCase(estado: string)
    ensures StatusClass(ToLower(estado)) == StatusClass(estado)
  {
    ToLowerIdempotent(estado);
  }

  /** The statuses as the form stores them get their own class. */
  lemma StatusClassOfCompletada()
    ensures StatusClass("Completada") == CompletadaClass
  {
    assert ToLower("Completada") == CompletadaClass;
  }

  lemma StatusClassOfPendiente()
    ensures StatusClass("Pendiente") == PendienteClass
  {
    assert ToLower("Pendiente") == PendienteClass;
  }

  /** Case does not matter. */
  lemma StatusClassOfUpperCancelada()
    ensures StatusClass("CANCELADA") == CanceladaClass
  {
    assert ToLower("CANCELADA") == CanceladaClass;
  }

  /** A status outside the three gets no class. */
  lemma StatusClassOfUnknown()
    ensures StatusClass("Anulada") == ""
  {
    assert ToLower("Anulada")[0] == 'a';
  }
}
