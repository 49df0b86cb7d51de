/** Rows of `ecf_documents` and the requests that write them. */
module Documents {
  import opened Wrappers

  /** The column triple of uq_ecf_documents_tenant_source_txn. */
  datatype TxnKey = TxnKey(tenant: string, txn: string, amb: string)

  /** The column triple of uq_ecf_documents_rnc_emisor_encf: one fiscal number at DGII. */
  datatype FiscalKey = FiscalKey(rnc: string, amb: string, encf: string)

  /** `Other` holds the raw text that a status query may store in the state column. */
  datatype State =
    | SequenceAllocated | SigningFailed | SchemaInvalid | Unsigned
    | AwaitingTransmission | Uncertain
    | Signed | SentToDgii | Processing
    | AcceptedByDgii | RejectedByDgii
    | RequiresManualReview
    | Other(text: string)

  /** The states in which the controller believes that nothing was ever posted. */
  predicate NeverTransmitted(s: State) {
    s.SequenceAllocated? || s.SigningFailed? || s.SchemaInvalid? || s.Unsigned?
  }

  /** The states from which a submission may still change the row. */
  predicate Open(s: State) {
    NeverTransmitted(s) || s.AwaitingTransmission? || s.Uncertain? || s.RejectedByDgii?
  }

  /** An e-CF built for one number and issuer; `content` stands for the rest of the canonical document. */
  datatype Xml = Xml(encf: string, rnc: string, content: string)

  /** The column signed_xml_content: a signature over an XML, or the bare XML after a failed signature. */
  datatype Payload = Plain(xml: Xml) | Sealed(xml: Xml, signature: string)

  datatype Doc = Doc(
    rnc: string,
    encf: string,
    edit: string,
    state: State,
    total: real,
    xml: Xml,
    payload: Option<Payload>,
    code: Option<string>,
    track: Option<string>,
    sentAt: Option<int>,
    lastCheck: Option<int>,
    attempts: nat)

  /** A parsed submission: the row it is about, and what it wants printed on the document. */
  datatype Req = Req(key: TxnKey, edit: string, rnc: string, content: string, total: real)

  function KeyOf(k: TxnKey, d: Doc): FiscalKey {
    FiscalKey(d.rnc, k.amb, d.encf)
  }

  /** applyCanonicalContent: rebuild the XML for the number that the row holds. */
  function Apply(d: Doc, r: Req): Doc {
    d.(edit := r.edit, rnc := r.rnc, xml := Xml(d.encf, r.rnc, r.content), total := r.total, state := SequenceAllocated)
  }

  function NewDoc(encf: string, r: Req): Doc {
    Apply(Doc(r.rnc, encf, r.edit, SequenceAllocated, 0.0, Xml(encf, r.rnc, r.content),
              None, None, None, None, None, 0), r)
  }

  /** The stored signature is of the stored XML, which is for the stored number and issuer. */
  predicate Consistent(d: Doc) {
    && d.xml.encf == d.encf
    && d.xml.rnc == d.rnc
    && d.payload.Some?
    && d.payload.value.Sealed?
    && d.payload.value.xml == d.xml
    && |d.payload.value.signature| >= 6
    && d.code == Some(d.payload.value.signature[..6])
  }

  predicate HasTrack(d: Doc) {
    d.track.Some? && d.track.value != ""
  }

  /** Small consumer invoices (type 32 below 250,000) go to RecepcionFC as a signed summary. */
  predicate IsSummary(d: Doc) {
    ("E32" <= d.encf || "e32" <= d.encf) && d.total < 250000.0
  }
}
