/** A python-docx Document reduced to the text it holds: the sequence of its
    headings, paragraphs and page breaks, without styling. */
module Docx {
  datatype Block = Heading(text: string, level: nat) | Paragraph(text: string) | PageBreak

  /** A document written to disk by Document.save. */
  datatype SavedDoc = SavedDoc(path: string, blocks: seq<Block>)
}
