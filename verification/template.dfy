/** The fixed text of the document `generateCodeTEIXML` writes, section by
    section, with the parts that vary (digest prefix, dates, author
    reference) as parameters. Read top to bottom, the sections spell out the
    template literal line for line. */
module Template {

  /** The XML declaration. */
  function XmlDeclaration(): string
  {
    "<?xml version=\"1.0\" "
    + "encoding=\"UTF-8\"?>\n"
  }

  /** The `TEI` start tag up to its namespace declarations; `id8` is the
      start of the digest. */
  function TeiStart(id8: string): string
  {
    "<TEI xml:id=\"work-"
    + id8
    + "\"\n"
  }

  function TeiNamespace(): string
  {
    "     xmlns=\"http://"
    + "www.tei-c.org/ns/1.0\"\n"
  }

  function CodeNamespace(): string
  {
    "     xmlns:code=\""
    + "http://codetei.org"
    + "/ns/code\"\n"
  }

  function MetaNamespace(): string
  {
    "     xmlns:meta=\""
    + "http://codetei.org"
    + "/ns/meta\">\n"
  }

  /** Everything before the header: declaration and `TEI` start tag. */
  function Prolog(id8: string): string
  {
    XmlDeclaration()
    + TeiStart(id8)
    + TeiNamespace()
    + CodeNamespace()
    + MetaNamespace()
  }

  /** The header up to the title statement's children. */
  function HeaderOpen(): string
  {
    "\n"
    + "  <!-- teiHeader -->\n"
    + "  <teiHeader>\n"
    + "    <fileDesc>\n"
    + "      <titleStmt>\n"
  }

  function CreatedNote(date: string): string
  {
    "        <p>Created "
    + date
    + " via CodeTEI "
    + "Corpus Site."
    + "</p>\n"
  }

  /** The publication statement, dated by `date`. */
  function PublicationStmt(date: string): string
  {
    "      <publicationStmt>\n"
    + CreatedNote(date)
    + "      </publicationStmt>\n"
  }

  function BornDigitalNote(): string
  {
    "        <p>Born-digital "
    + "work registered "
    + "via CodeTEI "
    + "Corpus Site."
    + "</p>\n"
  }

  function SourceDesc(): string
  {
    "      <sourceDesc>\n"
    + BornDigitalNote()
    + "      </sourceDesc>\n"
  }

  /** The rest of the file description after the author element. */
  function FileDescClose(date: string): string
  {
    "      </titleStmt>\n"
    + PublicationStmt(date)
    + SourceDesc()
    + "    </fileDesc>\n"
  }

  /** The encoding description naming the schema. */
  function EncodingDesc(): string
  {
    "    <encodingDesc>\n"
    + "      <schemaSpec "
    + "ident=\"CodeTEI-v0.2\"/>\n"
    + "    </encodingDesc>\n"
  }

  function ChangeTag(who: string, stamp: string): string
  {
    "      <change who=\""
    + who
    + "\" when=\""
    + stamp
    + "\">"
  }

  function Change(who: string, stamp: string): string
  {
    ChangeTag(who, stamp)
    + "initial "
    + "registration"
    + "</change>\n"
  }

  /** The revision description: one change by `who` at `stamp`. */
  function RevisionDesc(who: string, stamp: string): string
  {
    "    <revisionDesc>\n"
    + Change(who, stamp)
    + "    </revisionDesc>\n"
  }

  /** Everything from the end of the author element to the end of the header. */
  function HeaderClose(date: string, who: string, stamp: string): string
  {
    "\n"
    + FileDescClose(date)
    + EncodingDesc()
    + RevisionDesc(who, stamp)
    + "  </teiHeader>\n"
  }

  function BlockTag(): string
  {
    "      <code:block "
    + "xml:id=\"main-block\" "
    + "type=\"code\" "
  }

  /** The text body up to the code block's `lang` attribute. */
  function BlockStart(): string
  {
    "\n"
    + "  <!-- Code text -->\n"
    + "  <text>\n"
    + "    <body>\n"
    + BlockTag()
  }

  function BodyEnd(): string
  {
    "    </body>\n"
    + "  </text>\n"
    + "\n"
  }

  function StandOffComment(): string
  {
    "  <!-- standOff "
    + "for future "
    + "annotations -->\n"
  }

  function MetaComment(): string
  {
    "    <!-- Meta-"
    + "annotations will "
    + "be added here -->\n"
  }

  /** The empty stand-off section reserved for annotations. */
  function StandOff(): string
  {
    StandOffComment()
    + "  <standOff>\n"
    + MetaComment()
    + "  </standOff>\n"
  }

  /** The end of the code block and everything after it. */
  function BlockEnd(): string
  {
    "</code:block>\n"
    + BodyEnd()
    + StandOff()
    + "</TEI>"
  }

  /** What follows the last line element. */
  function BodyClose(): string
  {
    "\n      "
    + BlockEnd()
  }
}
