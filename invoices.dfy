/** The invoice records the two pipelines work on. Every optional text field is held as a
    string, a missing one as "" — the code only ever reads them through `|| ''` or a truthiness
    test, which treat the two alike. */
module Invoices {
  import opened Items

  /** The browser's invoice record (`LocalInvoiceData` of ContractGenerator.tsx): header
      fields, the raw texts, and the goods lines as records; a missing goods list is empty. */
  datatype Invoice = Invoice(
    fileName: string, buyer: string, buyerTaxID: string, seller: string, sellerTaxID: string,
    sellerBank: string, sellerBankAccount: string, project: string, projectAddress: string,
    fullText: string, content: string, itemsTable: seq<Item>)

  /** The server's invoice record (`InvoiceData` of InvoiceExtractor.ts): the fields the service
      reads, the goods lines as the tab-separated table text. */
  datatype ServiceInvoice = ServiceInvoice(
    project: string, buyerTaxID: string, sellerTaxID: string, fullText: string, itemsTable: string)
}
