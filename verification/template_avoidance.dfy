/** None of the document's fixed text can begin a match of the decoder's
    patterns: for each section and each opening literal, the section is
    split into short fragments, each of which lacks a character of the
    literal (or disagrees with it at its first character), and the
    fragments are put back together. */
module TemplateAvoidance {
  import opened Scanner
  import opened Template
  import opened CodeTei

  lemma XmlDeclarationAvoidsTitle()
    ensures Avoids(XmlDeclaration(), TitleOpen)
  {
    AvoidsByKey("<?xml version=\"1.0\" ", TitleOpen, 1, 't', "<");
    AvoidsByKey("encoding=\"UTF-8\"?>\n", TitleOpen, 0, '<', "");
    AvoidsAppend("<?xml version=\"1.0\" ", "encoding=\"UTF-8\"?>\n", TitleOpen);
  }

  lemma XmlDeclarationAvoidsAuthor()
    ensures Avoids(XmlDeclaration(), AuthorOpen)
  {
    AvoidsByKey("<?xml version=\"1.0\" ", AuthorOpen, 1, 'a', "<");
    AvoidsByKey("encoding=\"UTF-8\"?>\n", AuthorOpen, 0, '<', "");
    AvoidsAppend("<?xml version=\"1.0\" ", "encoding=\"UTF-8\"?>\n", AuthorOpen);
  }

  lemma XmlDeclarationAvoidsLine()
    ensures Avoids(XmlDeclaration(), LineOpen)
  {
    AvoidsByKey("<?xml version=\"1.0\" ", LineOpen, 1, 'c', "<");
    AvoidsByKey("encoding=\"UTF-8\"?>\n", LineOpen, 0, '<', "");
    AvoidsAppend("<?xml version=\"1.0\" ", "encoding=\"UTF-8\"?>\n", LineOpen);
  }

  lemma XmlDeclarationAvoidsLang()
    ensures Avoids(XmlDeclaration(), LangOpen)
  {
    AvoidsByKey("<?xml version=\"1.0\" ", LangOpen, 1, 'a', "l");
    AvoidsByKey("encoding=\"UTF-8\"?>\n", LangOpen, 0, 'l', "");
    AvoidsAppend("<?xml version=\"1.0\" ", "encoding=\"UTF-8\"?>\n", LangOpen);
  }

  lemma TeiStartAvoidsTitle(id8: string)
    requires '<' !in id8
    ensures Avoids(TeiStart(id8), TitleOpen)
  {
    AvoidsByKey("<TEI xml:id=\"work-", TitleOpen, 1, 't', "<");
    AvoidsByKey(id8, TitleOpen, 0, '<', "");
    AvoidsByKey("\"\n", TitleOpen, 0, '<', "");
    AvoidsConcat3("<TEI xml:id=\"work-", id8, "\"\n", TitleOpen);
  }

  lemma TeiStartAvoidsAuthor(id8: string)
    requires '<' !in id8
    ensures Avoids(TeiStart(id8), AuthorOpen)
  {
    AvoidsByKey("<TEI xml:id=\"work-", AuthorOpen, 1, 'a', "<");
    AvoidsByKey(id8, AuthorOpen, 0, '<', "");
    AvoidsByKey("\"\n", AuthorOpen, 0, '<', "");
    AvoidsConcat3("<TEI xml:id=\"work-", id8, "\"\n", AuthorOpen);
  }

  lemma TeiStartAvoidsLine(id8: string)
    requires '<' !in id8
    ensures Avoids(TeiStart(id8), LineOpen)
  {
    AvoidsByKey("<TEI xml:id=\"work-", LineOpen, 1, 'c', "<");
    AvoidsByKey(id8, LineOpen, 0, '<', "");
    AvoidsByKey("\"\n", LineOpen, 0, '<', "");
    AvoidsConcat3("<TEI xml:id=\"work-", id8, "\"\n", LineOpen);
  }

  lemma TeiStartAvoidsLang(id8: string)
    requires 'l' !in id8
    ensures Avoids(TeiStart(id8), LangOpen)
  {
    AvoidsByKey("<TEI xml:id=\"work-", LangOpen, 1, 'a', "l");
    AvoidsByKey(id8, LangOpen, 0, 'l', "");
    AvoidsByKey("\"\n", LangOpen, 0, 'l', "");
    AvoidsConcat3("<TEI xml:id=\"work-", id8, "\"\n", LangOpen);
  }

  lemma TeiNamespaceAvoidsTitle()
    ensures Avoids(TeiNamespace(), TitleOpen)
  {
    AvoidsByKey("     xmlns=\"http://", TitleOpen, 0, '<', "");
    AvoidsByKey("www.tei-c.org/ns/1.0\"\n", TitleOpen, 0, '<', "");
    AvoidsAppend("     xmlns=\"http://", "www.tei-c.org/ns/1.0\"\n", TitleOpen);
  }

  lemma TeiNamespaceAvoidsAuthor()
    ensures Avoids(TeiNamespace(), AuthorOpen)
  {
    AvoidsByKey("     xmlns=\"http://", AuthorOpen, 0, '<', "");
    AvoidsByKey("www.tei-c.org/ns/1.0\"\n", AuthorOpen, 0, '<', "");
    AvoidsAppend("     xmlns=\"http://", "www.tei-c.org/ns/1.0\"\n", AuthorOpen);
  }

  lemma TeiNamespaceAvoidsLine()
    ensures Avoids(TeiNamespace(), LineOpen)
  {
    AvoidsByKey("     xmlns=\"http://", LineOpen, 0, '<', "");
    AvoidsByKey("www.tei-c.org/ns/1.0\"\n", LineOpen, 0, '<', "");
    AvoidsAppend("     xmlns=\"http://", "www.tei-c.org/ns/1.0\"\n", LineOpen);
  }

  lemma TeiNamespaceAvoidsLang()
    ensures Avoids(TeiNamespace(), LangOpen)
  {
    AvoidsByKey("     xmlns=\"http://", LangOpen, 1, 'a', "l");
    AvoidsByKey("www.tei-c.org/ns/1.0\"\n", LangOpen, 0, 'l', "");
    AvoidsAppend("     xmlns=\"http://", "www.tei-c.org/ns/1.0\"\n", LangOpen);
  }

  lemma CodeNamespaceAvoidsTitle()
    ensures Avoids(CodeNamespace(), TitleOpen)
  {
    AvoidsByKey("     xmlns:code=\"", TitleOpen, 0, '<', "");
    AvoidsByKey("http://codetei.org", TitleOpen, 0, '<', "");
    AvoidsByKey("/ns/code\"\n", TitleOpen, 0, '<', "");
    AvoidsConcat3("     xmlns:code=\"", "http://codetei.org", "/ns/code\"\n", TitleOpen);
  }

  lemma CodeNamespaceAvoidsAuthor()
    ensures Avoids(CodeNamespace(), AuthorOpen)
  {
    AvoidsByKey("     xmlns:code=\"", AuthorOpen, 0, '<', "");
    AvoidsByKey("http://codetei.org", AuthorOpen, 0, '<', "");
    AvoidsByKey("/ns/code\"\n", AuthorOpen, 0, '<', "");
    AvoidsConcat3("     xmlns:code=\"", "http://codetei.org", "/ns/code\"\n", AuthorOpen);
  }

  lemma CodeNamespaceAvoidsLine()
    ensures Avoids(CodeNamespace(), LineOpen)
  {
    AvoidsByKey("     xmlns:code=\"", LineOpen, 0, '<', "");
    AvoidsByKey("http://codetei.org", LineOpen, 0, '<', "");
    AvoidsByKey("/ns/code\"\n", LineOpen, 0, '<', "");
    AvoidsConcat3("     xmlns:code=\"", "http://codetei.org", "/ns/code\"\n", LineOpen);
  }

  lemma CodeNamespaceAvoidsLang()
    ensures Avoids(CodeNamespace(), LangOpen)
  {
    AvoidsByKey("     xmlns:code=\"", LangOpen, 1, 'a', "l");
    AvoidsByKey("http://codetei.org", LangOpen, 0, 'l', "");
    AvoidsByKey("/ns/code\"\n", LangOpen, 0, 'l', "");
    AvoidsConcat3("     xmlns:code=\"", "http://codetei.org", "/ns/code\"\n", LangOpen);
  }

  lemma MetaNamespaceAvoidsTitle()
    ensures Avoids(MetaNamespace(), TitleOpen)
  {
    AvoidsByKey("     xmlns:meta=\"", TitleOpen, 0, '<', "");
    AvoidsByKey("http://codetei.org", TitleOpen, 0, '<', "");
    AvoidsByKey("/ns/meta\">\n", TitleOpen, 0, '<', "");
    AvoidsConcat3("     xmlns:meta=\"", "http://codetei.org", "/ns/meta\">\n", TitleOpen);
  }

  lemma MetaNamespaceAvoidsAuthor()
    ensures Avoids(MetaNamespace(), AuthorOpen)
  {
    AvoidsByKey("     xmlns:meta=\"", AuthorOpen, 0, '<', "");
    AvoidsByKey("http://codetei.org", AuthorOpen, 0, '<', "");
    AvoidsByKey("/ns/meta\">\n", AuthorOpen, 0, '<', "");
    AvoidsConcat3("     xmlns:meta=\"", "http://codetei.org", "/ns/meta\">\n", AuthorOpen);
  }

  lemma MetaNamespaceAvoidsLine()
    ensures Avoids(MetaNamespace(), LineOpen)
  {
    AvoidsByKey("     xmlns:meta=\"", LineOpen, 0, '<', "");
    AvoidsByKey("http://codetei.org", LineOpen, 0, '<', "");
    AvoidsByKey("/ns/meta\">\n", LineOpen, 0, '<', "");
    AvoidsConcat3("     xmlns:meta=\"", "http://codetei.org", "/ns/meta\">\n", LineOpen);
  }

  lemma MetaNamespaceAvoidsLang()
    ensures Avoids(MetaNamespace(), LangOpen)
  {
    AvoidsByKey("     xmlns:meta=\"", LangOpen, 3, 'g', "lan");
    AvoidsByKey("http://codetei.org", LangOpen, 0, 'l', "");
    AvoidsByKey("/ns/meta\">\n", LangOpen, 0, 'l', "");
    AvoidsConcat3("     xmlns:meta=\"", "http://codetei.org", "/ns/meta\">\n", LangOpen);
  }

  lemma PrologAvoidsTitle(id8: string)
    requires '<' !in id8
    ensures Avoids(Prolog(id8), TitleOpen)
  {
    XmlDeclarationAvoidsTitle();
    TeiStartAvoidsTitle(id8);
    TeiNamespaceAvoidsTitle();
    CodeNamespaceAvoidsTitle();
    MetaNamespaceAvoidsTitle();
    AvoidsConcat5(XmlDeclaration(), TeiStart(id8), TeiNamespace(), CodeNamespace(), MetaNamespace(), TitleOpen);
  }

  lemma PrologAvoidsAuthor(id8: string)
    requires '<' !in id8
    ensures Avoids(Prolog(id8), AuthorOpen)
  {
    XmlDeclarationAvoidsAuthor();
    TeiStartAvoidsAuthor(id8);
    TeiNamespaceAvoidsAuthor();
    CodeNamespaceAvoidsAuthor();
    MetaNamespaceAvoidsAuthor();
    AvoidsConcat5(XmlDeclaration(), TeiStart(id8), TeiNamespace(), CodeNamespace(), MetaNamespace(), AuthorOpen);
  }

  lemma PrologAvoidsLine(id8: string)
    requires '<' !in id8
    ensures Avoids(Prolog(id8), LineOpen)
  {
    XmlDeclarationAvoidsLine();
    TeiStartAvoidsLine(id8);
    TeiNamespaceAvoidsLine();
    CodeNamespaceAvoidsLine();
    MetaNamespaceAvoidsLine();
    AvoidsConcat5(XmlDeclaration(), TeiStart(id8), TeiNamespace(), CodeNamespace(), MetaNamespace(), LineOpen);
  }

  lemma PrologAvoidsLang(id8: string)
    requires 'l' !in id8
    ensures Avoids(Prolog(id8), LangOpen)
  {
    XmlDeclarationAvoidsLang();
    TeiStartAvoidsLang(id8);
    TeiNamespaceAvoidsLang();
    CodeNamespaceAvoidsLang();
    MetaNamespaceAvoidsLang();
    AvoidsConcat5(XmlDeclaration(), TeiStart(id8), TeiNamespace(), CodeNamespace(), MetaNamespace(), LangOpen);
  }

  lemma HeaderOpenAvoidsTitle()
    ensures Avoids(HeaderOpen(), TitleOpen)
  {
    AvoidsByKey("\n", TitleOpen, 0, '<', "");
    AvoidsByKey("  <!-- teiHeader -->\n", TitleOpen, 4, 'l', "<tit");
    AvoidsByKey("  <teiHeader>\n", TitleOpen, 4, 'l', "<tit");
    AvoidsByKey("    <fileDesc>\n", TitleOpen, 1, 't', "<");
    AvoidsByKey("      <titleS", TitleOpen, 6, '>', "<title");
    AvoidsByKey("tmt>\n", TitleOpen, 0, '<', "");
    AvoidsAppend("      <titleS", "tmt>\n", TitleOpen);
    assert "      <titleS" + "tmt>\n" == "      <titleStmt>\n";
    AvoidsConcat5("\n", "  <!-- teiHeader -->\n", "  <teiHeader>\n", "    <fileDesc>\n", "      <titleStmt>\n", TitleOpen);
  }

  lemma HeaderOpenAvoidsAuthor()
    ensures Avoids(HeaderOpen(), AuthorOpen)
  {
    AvoidsByKey("\n", AuthorOpen, 0, '<', "");
    AvoidsByKey("  <!-- teiHeader -->\n", AuthorOpen, 2, 'u', "<a");
    AvoidsByKey("  <teiHeader>\n", AuthorOpen, 2, 'u', "<a");
    AvoidsByKey("    <fileDesc>\n", AuthorOpen, 1, 'a', "<");
    AvoidsByKey("      <titleStmt>\n", AuthorOpen, 1, 'a', "<");
    AvoidsConcat5("\n", "  <!-- teiHeader -->\n", "  <teiHeader>\n", "    <fileDesc>\n", "      <titleStmt>\n", AuthorOpen);
  }

  lemma HeaderOpenAvoidsLine()
    ensures Avoids(HeaderOpen(), LineOpen)
  {
    AvoidsByKey("\n", LineOpen, 0, '<', "");
    AvoidsByKey("  <!-- teiHeader -->\n", LineOpen, 1, 'c', "<");
    AvoidsByKey("  <teiHeader>\n", LineOpen, 1, 'c', "<");
    AvoidsByKey("    <fileDesc>\n", LineOpen, 2, 'o', "<c");
    AvoidsByKey("      <titleStmt>\n", LineOpen, 1, 'c', "<");
    AvoidsConcat5("\n", "  <!-- teiHeader -->\n", "  <teiHeader>\n", "    <fileDesc>\n", "      <titleStmt>\n", LineOpen);
  }

  lemma HeaderOpenAvoidsLang()
    ensures Avoids(HeaderOpen(), LangOpen)
  {
    AvoidsByKey("\n", LangOpen, 0, 'l', "");
    AvoidsByKey("  <!-- teiHeader -->\n", LangOpen, 0, 'l', "");
    AvoidsByKey("  <teiHeader>\n", LangOpen, 0, 'l', "");
    AvoidsByKey("    <fileDesc>\n", LangOpen, 1, 'a', "l");
    AvoidsByKey("      <titleStmt>\n", LangOpen, 1, 'a', "l");
    AvoidsConcat5("\n", "  <!-- teiHeader -->\n", "  <teiHeader>\n", "    <fileDesc>\n", "      <titleStmt>\n", LangOpen);
  }

  lemma CreatedNoteAvoidsLine(date: string)
    requires '<' !in date
    ensures Avoids(CreatedNote(date), LineOpen)
  {
    AvoidsByKey("        <p>Created ", LineOpen, 1, 'c', "<");
    AvoidsByKey(date, LineOpen, 0, '<', "");
    AvoidsByKey(" via CodeTEI ", LineOpen, 0, '<', "");
    AvoidsByKey("Corpus Site.", LineOpen, 0, '<', "");
    AvoidsByKey("</p>\n", LineOpen, 1, 'c', "<");
    AvoidsConcat5("        <p>Created ", date, " via CodeTEI ", "Corpus Site.", "</p>\n", LineOpen);
  }

  lemma CreatedNoteAvoidsLang(date: string)
    requires 'l' !in date
    ensures Avoids(CreatedNote(date), LangOpen)
  {
    AvoidsByKey("        <p>Created ", LangOpen, 0, 'l', "");
    AvoidsByKey(date, LangOpen, 0, 'l', "");
    AvoidsByKey(" via CodeTEI ", LangOpen, 0, 'l', "");
    AvoidsByKey("Corpus Site.", LangOpen, 0, 'l', "");
    AvoidsByKey("</p>\n", LangOpen, 0, 'l', "");
    AvoidsConcat5("        <p>Created ", date, " via CodeTEI ", "Corpus Site.", "</p>\n", LangOpen);
  }

  lemma PublicationStmtAvoidsLine(date: string)
    requires '<' !in date
    ensures Avoids(PublicationStmt(date), LineOpen)
  {
    AvoidsByKey("      <publicationStmt>\n", LineOpen, 3, 'd', "<co");
    CreatedNoteAvoidsLine(date);
    AvoidsByKey("      </publicationStmt>\n", LineOpen, 3, 'd', "<co");
    AvoidsConcat3("      <publicationStmt>\n", CreatedNote(date), "      </publicationStmt>\n", LineOpen);
  }

  lemma PublicationStmtAvoidsLang(date: string)
    requires 'l' !in date
    ensures Avoids(PublicationStmt(date), LangOpen)
  {
    AvoidsByKey("      <publicationStmt>\n", LangOpen, 3, 'g', "lan");
    CreatedNoteAvoidsLang(date);
    AvoidsByKey("      </publicationStmt>\n", LangOpen, 3, 'g', "lan");
    AvoidsConcat3("      <publicationStmt>\n", CreatedNote(date), "      </publicationStmt>\n", LangOpen);
  }

  lemma BornDigitalNoteAvoidsLine()
    ensures Avoids(BornDigitalNote(), LineOpen)
  {
    AvoidsByKey("        <p>Born-digital ", LineOpen, 1, 'c', "<");
    AvoidsByKey("work registered ", LineOpen, 0, '<', "");
    AvoidsByKey("via CodeTEI ", LineOpen, 0, '<', "");
    AvoidsByKey("Corpus Site.", LineOpen, 0, '<', "");
    AvoidsByKey("</p>\n", LineOpen, 1, 'c', "<");
    AvoidsConcat5("        <p>Born-digital ", "work registered ", "via CodeTEI ", "Corpus Site.", "</p>\n", LineOpen);
  }

  lemma BornDigitalNoteAvoidsLang()
    ensures Avoids(BornDigitalNote(), LangOpen)
  {
    AvoidsByKey("        <p>Born-digital ", LangOpen, 4, '=', "lang");
    AvoidsByKey("work registered ", LangOpen, 0, 'l', "");
    AvoidsByKey("via CodeTEI ", LangOpen, 0, 'l', "");
    AvoidsByKey("Corpus Site.", LangOpen, 0, 'l', "");
    AvoidsByKey("</p>\n", LangOpen, 0, 'l', "");
    AvoidsConcat5("        <p>Born-digital ", "work registered ", "via CodeTEI ", "Corpus Site.", "</p>\n", LangOpen);
  }

  lemma SourceDescAvoidsLine()
    ensures Avoids(SourceDesc(), LineOpen)
  {
    AvoidsByKey("      <sourceDesc>\n", LineOpen, 3, 'd', "<co");
    BornDigitalNoteAvoidsLine();
    AvoidsByKey("      </sourceDesc>\n", LineOpen, 3, 'd', "<co");
    AvoidsConcat3("      <sourceDesc>\n", BornDigitalNote(), "      </sourceDesc>\n", LineOpen);
  }

  lemma SourceDescAvoidsLang()
    ensures Avoids(SourceDesc(), LangOpen)
  {
    AvoidsByKey("      <sourceDesc>\n", LangOpen, 0, 'l', "");
    BornDigitalNoteAvoidsLang();
    AvoidsByKey("      </sourceDesc>\n", LangOpen, 0, 'l', "");
    AvoidsConcat3("      <sourceDesc>\n", BornDigitalNote(), "      </sourceDesc>\n", LangOpen);
  }

  lemma FileDescCloseAvoidsLine(date: string)
    requires '<' !in date
    ensures Avoids(FileDescClose(date), LineOpen)
  {
    AvoidsByKey("      </titleStmt>\n", LineOpen, 1, 'c', "<");
    PublicationStmtAvoidsLine(date);
    SourceDescAvoidsLine();
    AvoidsByKey("    </fileDesc>\n", LineOpen, 2, 'o', "<c");
    AvoidsConcat4("      </titleStmt>\n", PublicationStmt(date), SourceDesc(), "    </fileDesc>\n", LineOpen);
  }

  lemma FileDescCloseAvoidsLang(date: string)
    requires 'l' !in date
    ensures Avoids(FileDescClose(date), LangOpen)
  {
    AvoidsByKey("      </titleStmt>\n", LangOpen, 1, 'a', "l");
    PublicationStmtAvoidsLang(date);
    SourceDescAvoidsLang();
    AvoidsByKey("    </fileDesc>\n", LangOpen, 1, 'a', "l");
    AvoidsConcat4("      </titleStmt>\n", PublicationStmt(date), SourceDesc(), "    </fileDesc>\n", LangOpen);
  }

  lemma EncodingDescAvoidsLine()
    ensures Avoids(EncodingDesc(), LineOpen)
  {
    AvoidsByKey("    <encodingDesc>\n", LineOpen, 5, ':', "<code");
    AvoidsByKey("      <schemaSpec ", LineOpen, 2, 'o', "<c");
    AvoidsByKey("ident=\"CodeTEI-v0.2\"/>\n", LineOpen, 0, '<', "");
    AvoidsByKey("    </encodingDesc>\n", LineOpen, 5, ':', "<code");
    AvoidsConcat4("    <encodingDesc>\n", "      <schemaSpec ", "ident=\"CodeTEI-v0.2\"/>\n", "    </encodingDesc>\n", LineOpen);
  }

  lemma EncodingDescAvoidsLang()
    ensures Avoids(EncodingDesc(), LangOpen)
  {
    AvoidsByKey("    <encodingDesc>\n", LangOpen, 0, 'l', "");
    AvoidsByKey("      <schemaSpec ", LangOpen, 0, 'l', "");
    AvoidsByKey("ident=\"CodeTEI-v0.2\"/>\n", LangOpen, 0, 'l', "");
    AvoidsByKey("    </encodingDesc>\n", LangOpen, 0, 'l', "");
    AvoidsConcat4("    <encodingDesc>\n", "      <schemaSpec ", "ident=\"CodeTEI-v0.2\"/>\n", "    </encodingDesc>\n", LangOpen);
  }

  lemma ChangeTagAvoidsLine(who: string, stamp: string)
    requires '<' !in who
    requires '<' !in stamp
    ensures Avoids(ChangeTag(who, stamp), LineOpen)
  {
    AvoidsByKey("      <change who=\"", LineOpen, 3, 'd', "<co");
    AvoidsByKey(who, LineOpen, 0, '<', "");
    AvoidsByKey("\" when=\"", LineOpen, 0, '<', "");
    AvoidsByKey(stamp, LineOpen, 0, '<', "");
    AvoidsByKey("\">", LineOpen, 0, '<', "");
    AvoidsConcat5("      <change who=\"", who, "\" when=\"", stamp, "\">", LineOpen);
  }

  lemma ChangeTagAvoidsLang(who: string, stamp: string)
    requires 'l' !in who
    requires 'l' !in stamp
    ensures Avoids(ChangeTag(who, stamp), LangOpen)
  {
    AvoidsByKey("      <change who=\"", LangOpen, 0, 'l', "");
    AvoidsByKey(who, LangOpen, 0, 'l', "");
    AvoidsByKey("\" when=\"", LangOpen, 0, 'l', "");
    AvoidsByKey(stamp, LangOpen, 0, 'l', "");
    AvoidsByKey("\">", LangOpen, 0, 'l', "");
    AvoidsConcat5("      <change who=\"", who, "\" when=\"", stamp, "\">", LangOpen);
  }

  lemma ChangeAvoidsLine(who: string, stamp: string)
    requires '<' !in who
    requires '<' !in stamp
    ensures Avoids(Change(who, stamp), LineOpen)
  {
    ChangeTagAvoidsLine(who, stamp);
    AvoidsByKey("initial ", LineOpen, 0, '<', "");
    AvoidsByKey("registration", LineOpen, 0, '<', "");
    AvoidsByKey("</change>\n", LineOpen, 2, 'o', "<c");
    AvoidsConcat4(ChangeTag(who, stamp), "initial ", "registration", "</change>\n", LineOpen);
  }

  lemma ChangeAvoidsLang(who: string, stamp: string)
    requires 'l' !in who
    requires 'l' !in stamp
    ensures Avoids(Change(who, stamp), LangOpen)
  {
    ChangeTagAvoidsLang(who, stamp);
    AvoidsByKey("initial ", LangOpen, 3, 'g', "lan");
    AvoidsByKey("registration", LangOpen, 0, 'l', "");
    AvoidsByKey("</change>\n", LangOpen, 0, 'l', "");
    AvoidsConcat4(ChangeTag(who, stamp), "initial ", "registration", "</change>\n", LangOpen);
  }

  lemma RevisionDescAvoidsLine(who: string, stamp: string)
    requires '<' !in who
    requires '<' !in stamp
    ensures Avoids(RevisionDesc(who, stamp), LineOpen)
  {
    AvoidsByKey("    <revisionDesc>\n", LineOpen, 3, 'd', "<co");
    ChangeAvoidsLine(who, stamp);
    AvoidsByKey("    </revisionDesc>\n", LineOpen, 3, 'd', "<co");
    AvoidsConcat3("    <revisionDesc>\n", Change(who, stamp), "    </revisionDesc>\n", LineOpen);
  }

  lemma RevisionDescAvoidsLang(who: string, stamp: string)
    requires 'l' !in who
    requires 'l' !in stamp
    ensures Avoids(RevisionDesc(who, stamp), LangOpen)
  {
    AvoidsByKey("    <revisionDesc>\n", LangOpen, 0, 'l', "");
    ChangeAvoidsLang(who, stamp);
    AvoidsByKey("    </revisionDesc>\n", LangOpen, 0, 'l', "");
    AvoidsConcat3("    <revisionDesc>\n", Change(who, stamp), "    </revisionDesc>\n", LangOpen);
  }

  lemma HeaderCloseAvoidsLine(date: string, who: string, stamp: string)
    requires '<' !in date
    requires '<' !in who
    requires '<' !in stamp
    ensures Avoids(HeaderClose(date, who, stamp), LineOpen)
  {
    AvoidsByKey("\n", LineOpen, 0, '<', "");
    FileDescCloseAvoidsLine(date);
    EncodingDescAvoidsLine();
    RevisionDescAvoidsLine(who, stamp);
    AvoidsByKey("  </teiHeader>\n", LineOpen, 1, 'c', "<");
    AvoidsConcat5("\n", FileDescClose(date), EncodingDesc(), RevisionDesc(who, stamp), "  </teiHeader>\n", LineOpen);
  }

  lemma HeaderCloseAvoidsLang(date: string, who: string, stamp: string)
    requires 'l' !in date
    requires 'l' !in who
    requires 'l' !in stamp
    ensures Avoids(HeaderClose(date, who, stamp), LangOpen)
  {
    AvoidsByKey("\n", LangOpen, 0, 'l', "");
    FileDescCloseAvoidsLang(date);
    EncodingDescAvoidsLang();
    RevisionDescAvoidsLang(who, stamp);
    AvoidsByKey("  </teiHeader>\n", LangOpen, 0, 'l', "");
    AvoidsConcat5("\n", FileDescClose(date), EncodingDesc(), RevisionDesc(who, stamp), "  </teiHeader>\n", LangOpen);
  }

  lemma BlockTagAvoidsLine()
    ensures Avoids(BlockTag(), LineOpen)
  {
    AvoidsByKey("      <code:block ", LineOpen, 7, 'i', "<code:l");
    AvoidsByKey("xml:id=\"main-block\" ", LineOpen, 0, '<', "");
    AvoidsByKey("type=\"code\" ", LineOpen, 0, '<', "");
    AvoidsConcat3("      <code:block ", "xml:id=\"main-block\" ", "type=\"code\" ", LineOpen);
  }

  lemma BlockTagAvoidsLang()
    ensures Avoids(BlockTag(), LangOpen)
  {
    AvoidsByKey("      <code:block ", LangOpen, 1, 'a', "l");
    AvoidsByKey("xml:id=\"main-block\" ", LangOpen, 3, 'g', "lan");
    AvoidsByKey("type=\"code\" ", LangOpen, 0, 'l', "");
    AvoidsConcat3("      <code:block ", "xml:id=\"main-block\" ", "type=\"code\" ", LangOpen);
  }

  lemma BlockStartAvoidsLine()
    ensures Avoids(BlockStart(), LineOpen)
  {
    AvoidsByKey("\n", LineOpen, 0, '<', "");
    AvoidsByKey("  <!-- Code text -->\n", LineOpen, 1, 'c', "<");
    AvoidsByKey("  <text>\n", LineOpen, 1, 'c', "<");
    AvoidsByKey("    <body>\n", LineOpen, 1, 'c', "<");
    BlockTagAvoidsLine();
    AvoidsConcat5("\n", "  <!-- Code text -->\n", "  <text>\n", "    <body>\n", BlockTag(), LineOpen);
  }

  lemma BlockStartAvoidsLang()
    ensures Avoids(BlockStart(), LangOpen)
  {
    AvoidsByKey("\n", LangOpen, 0, 'l', "");
    AvoidsByKey("  <!-- Code text -->\n", LangOpen, 0, 'l', "");
    AvoidsByKey("  <text>\n", LangOpen, 0, 'l', "");
    AvoidsByKey("    <body>\n", LangOpen, 0, 'l', "");
    BlockTagAvoidsLang();
    AvoidsConcat5("\n", "  <!-- Code text -->\n", "  <text>\n", "    <body>\n", BlockTag(), LangOpen);
  }

  lemma BodyEndAvoidsLine()
    ensures Avoids(BodyEnd(), LineOpen)
  {
    AvoidsByKey("    </body>\n", LineOpen, 1, 'c', "<");
    AvoidsByKey("  </text>\n", LineOpen, 1, 'c', "<");
    AvoidsByKey("\n", LineOpen, 0, '<', "");
    AvoidsConcat3("    </body>\n", "  </text>\n", "\n", LineOpen);
  }

  lemma BodyEndAvoidsLang()
    ensures Avoids(BodyEnd(), LangOpen)
  {
    AvoidsByKey("    </body>\n", LangOpen, 0, 'l', "");
    AvoidsByKey("  </text>\n", LangOpen, 0, 'l', "");
    AvoidsByKey("\n", LangOpen, 0, 'l', "");
    AvoidsConcat3("    </body>\n", "  </text>\n", "\n", LangOpen);
  }

  lemma StandOffCommentAvoidsLine()
    ensures Avoids(StandOffComment(), LineOpen)
  {
    AvoidsByKey("  <!-- standOff ", LineOpen, 1, 'c', "<");
    AvoidsByKey("for future ", LineOpen, 0, '<', "");
    AvoidsByKey("annotations -->\n", LineOpen, 0, '<', "");
    AvoidsConcat3("  <!-- standOff ", "for future ", "annotations -->\n", LineOpen);
  }

  lemma StandOffCommentAvoidsLang()
    ensures Avoids(StandOffComment(), LangOpen)
  {
    AvoidsByKey("  <!-- standOff ", LangOpen, 0, 'l', "");
    AvoidsByKey("for future ", LangOpen, 0, 'l', "");
    AvoidsByKey("annotations -->\n", LangOpen, 0, 'l', "");
    AvoidsConcat3("  <!-- standOff ", "for future ", "annotations -->\n", LangOpen);
  }

  lemma MetaCommentAvoidsLine()
    ensures Avoids(MetaComment(), LineOpen)
  {
    AvoidsByKey("    <!-- Meta-", LineOpen, 1, 'c', "<");
    AvoidsByKey("annotations will ", LineOpen, 0, '<', "");
    AvoidsByKey("be added here -->\n", LineOpen, 0, '<', "");
    AvoidsConcat3("    <!-- Meta-", "annotations will ", "be added here -->\n", LineOpen);
  }

  lemma MetaCommentAvoidsLang()
    ensures Avoids(MetaComment(), LangOpen)
  {
    AvoidsByKey("    <!-- Meta-", LangOpen, 0, 'l', "");
    AvoidsByKey("annotations will ", LangOpen, 3, 'g', "lan");
    AvoidsByKey("be added here -->\n", LangOpen, 0, 'l', "");
    AvoidsConcat3("    <!-- Meta-", "annotations will ", "be added here -->\n", LangOpen);
  }

  lemma StandOffAvoidsLine()
    ensures Avoids(StandOff(), LineOpen)
  {
    StandOffCommentAvoidsLine();
    AvoidsByKey("  <standOff>\n", LineOpen, 1, 'c', "<");
    MetaCommentAvoidsLine();
    AvoidsByKey("  </standOff>\n", LineOpen, 1, 'c', "<");
    AvoidsConcat4(StandOffComment(), "  <standOff>\n", MetaComment(), "  </standOff>\n", LineOpen);
  }

  lemma StandOffAvoidsLang()
    ensures Avoids(StandOff(), LangOpen)
  {
    StandOffCommentAvoidsLang();
    AvoidsByKey("  <standOff>\n", LangOpen, 0, 'l', "");
    MetaCommentAvoidsLang();
    AvoidsByKey("  </standOff>\n", LangOpen, 0, 'l', "");
    AvoidsConcat4(StandOffComment(), "  <standOff>\n", MetaComment(), "  </standOff>\n", LangOpen);
  }

  lemma BlockEndAvoidsLine()
    ensures Avoids(BlockEnd(), LineOpen)
  {
    AvoidsByKey("</code:block>\n", LineOpen, 7, 'i', "<code:l");
    BodyEndAvoidsLine();
    StandOffAvoidsLine();
    AvoidsByKey("</TEI>", LineOpen, 1, 'c', "<");
    AvoidsConcat4("</code:block>\n", BodyEnd(), StandOff(), "</TEI>", LineOpen);
  }

  lemma BlockEndAvoidsLang()
    ensures Avoids(BlockEnd(), LangOpen)
  {
    AvoidsByKey("</code:block>\n", LangOpen, 1, 'a', "l");
    BodyEndAvoidsLang();
    StandOffAvoidsLang();
    AvoidsByKey("</TEI>", LangOpen, 0, 'l', "");
    AvoidsConcat4("</code:block>\n", BodyEnd(), StandOff(), "</TEI>", LangOpen);
  }

  lemma BodyCloseAvoidsLine()
    ensures Avoids(BodyClose(), LineOpen)
  {
    AvoidsByKey("\n      ", LineOpen, 0, '<', "");
    BlockEndAvoidsLine();
    AvoidsAppend("\n      ", BlockEnd(), LineOpen);
  }

  lemma BodyCloseAvoidsLang()
    ensures Avoids(BodyClose(), LangOpen)
  {
    AvoidsByKey("\n      ", LangOpen, 0, 'l', "");
    BlockEndAvoidsLang();
    AvoidsAppend("\n      ", BlockEnd(), LangOpen);
  }
}
