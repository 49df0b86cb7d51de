/** How the engine reads the free-text `estado` of a DGII answer. */
module Estado {

  predicate IsSpace(c: char) {
    c == ' ' || '\t' <= c <= '\r'
  }

  function ToLower(c: char): char {
    if 'A' <= c <= 'Z' then ((c as int) + 32) as char else c
  }

  function Lower(s: string): (r: string)
    ensures |r| == |s|
    ensures forall i :: 0 <= i < |s| ==> r[i] == ToLower(s[i])
  {
    seq(|s|, i requires 0 <= i < |s| => ToLower(s[i]))
  }

  function TrimLeft(s: string): string {
    if s != "" && IsSpace(s[0]) then TrimLeft(s[1..]) else s
  }

  function TrimRight(s: string): string {
    if s != "" && IsSpace(s[|s| - 1]) then TrimRight(s[..|s| - 1]) else s
  }

  function Trim(s: string): string {
    TrimRight(TrimLeft(s))
  }

  /** What an answer means to the engine. `Missing` is blank or one of two exact spellings. */
  datatype Verdict = Missing | Accepts | Rejects | InProcess

  predicate SaysNotFound(t: string) {
    t == "No encontrado" || t == "no encontrado"
  }

  function Read(estado: string): Verdict {
    var t := Trim(estado);
    if t == "" || SaysNotFound(t) then Missing
    else if Lower(t) == "aceptado" || Lower(t) == "aceptado condicional" then Accepts
    else if Lower(t) == "rechazado" then Rejects
    else InProcess
  }
}
