/** The names the test suite of src/name-formatter.test.ts formats. */
module TestNames {
  import opened Wrappers
  import opened Names

  function John(): Name { Name(Some("John"), Some("Robert"), Some("Doe")) }
  function JaneNoMiddle(): Name { Name(Some("Jane"), None, Some("Doe")) }
  function EmptyName(): Name { Name(Some(""), None, Some("")) }
}

/**
 * The expectations of src/name-formatter.test.ts, as lemmas about
 * `NameFormatter.FormatName`. A format longer than a few characters is
 * written as the concatenation of the pieces the proof evaluates one at a
 * time; the pieces' values are the small lemmas at the end of the module.
 */
module NameFormatterTests {
  import opened Wrappers
  import AsciiCase
  import opened Names
  import opened TokenScan
  import opened NameFormatter
  import opened TestNames

  // The expectations that agree with the code, one lemma per test.

  lemma NullNameOrFormat()
    ensures FormatName(None, Some("F L")) == ""
    ensures FormatName(Some(John()), None) == ""
  {
  }

  lemma FormatsFL()
    ensures FormatName(Some(John()), Some("F L")) == "John Doe"
  {
    JohnFL();
  }

  // "L, F M" gives "Doe, John Robert".
  lemma FormatsLFM()
    ensures FormatName(Some(John()), Some("L, " + "F M")) == "Doe, " + "John Robert"
  {
    JohnLComma();
    JohnFM();
    LetterwiseAppend(John(), "L, ", "F M");
  }

  // "f.l.m." gives "john.doe.robert.".
  lemma FormatsLowerDotted()
    ensures FormatName(Some(John()), Some("f." + "l." + "m.")) == "john." + "doe." + "robert."
  {
    JohnLowerFirst();
    JohnLowerLast();
    JohnLowerMiddle();
    LetterwiseAppend(John(), "f.", "l.");
    LetterwiseAppend(John(), "f." + "l.", "m.");
  }

  // "I.J.K." gives "J.R.D.".
  lemma FormatsInitials()
    ensures FormatName(Some(John()), Some("I." + "J." + "K.")) == "J." + "R." + "D."
  {
    JohnFirstInitial();
    JohnMiddleInitial();
    JohnLastInitial();
    LetterwiseAppend(John(), "I.", "J.");
    LetterwiseAppend(John(), "I." + "J.", "K.");
  }

  lemma FormatsLowerInitials()
    ensures FormatName(Some(John()), Some("ijk")) == "jrd"
  {
    JohnLowerInitials();
  }

  // "F M L" gives "Jane  Doe".
  lemma MissingMiddleNameFML()
    ensures FormatName(Some(JaneNoMiddle()), Some("F M" + " L")) == "Jane " + " Doe"
  {
    JaneFM();
    JaneSpaceL();
    LetterwiseAppend(JaneNoMiddle(), "F M", " L");
  }

  // "F J L" gives "Jane  Doe".
  lemma MissingMiddleNameFJL()
    ensures FormatName(Some(JaneNoMiddle()), Some("F J" + " L")) == "Jane " + " Doe"
  {
    JaneFJ();
    JaneSpaceL();
    LetterwiseAppend(JaneNoMiddle(), "F J", " L");
  }

  // "I.J.K." gives "J..D.".
  lemma MissingMiddleNameInitials()
    ensures FormatName(Some(JaneNoMiddle()), Some("I." + "J." + "K.")) == "J." + "." + "D."
  {
    var n := JaneNoMiddle();
    JaneFirstInitial();
    JaneMiddleInitial();
    JaneLastInitial();
    LetterwiseAppend(n, "I.", "J.");
    LetterwiseAppend(n, "I." + "J.", "K.");
  }

  // "F L" gives " " and "I.K." gives "..".
  lemma EmptyNameParts()
    ensures FormatName(Some(EmptyName()), Some("F L")) == " "
    ensures FormatName(Some(EmptyName()), Some("I." + "K.")) == "." + "."
  {
    EmptyFL();
    EmptyFirstInitial();
    EmptyLastInitial();
    LetterwiseAppend(EmptyName(), "I.", "K.");
  }

  // What the code gives for the three test expectations it does not meet:
  // `FIRST`, `LAST` and `MIDDLE` are read letter by letter, and characters
  // that are not token letters are copied.

  // "FIRST LAST MIDDLE" gives "JohnJRST DoeAST RobertJDDDoeE", not "JOHN DOE ROBERT".
  lemma AllCapsWordsReadByLetter()
    ensures FormatName(Some(John()), Some("FIR" + "ST " + "LA" + "ST " + "MID" + "DLE"))
         == "JohnJR" + "ST " + "DoeA" + "ST " + "RobertJD" + "DDoeE"
    ensures FormatName(Some(John()), Some("FIR" + "ST " + "LA" + "ST " + "MID" + "DLE")) != "JOHN DOE ROBERT"
  {
    var n := John();
    JohnFIR();
    JohnSTSpace();
    JohnLA();
    JohnMID();
    JohnDLE();
    LetterwiseAppend(n, "FIR", "ST ");
    LetterwiseAppend(n, "FIR" + "ST ", "LA");
    LetterwiseAppend(n, "FIR" + "ST " + "LA", "ST ");
    LetterwiseAppend(n, "FIR" + "ST " + "LA" + "ST ", "MID");
    LetterwiseAppend(n, "FIR" + "ST " + "LA" + "ST " + "MID", "DLE");
  }

  // "F lAST MIddle" gives "John doeAST RobertJdddoee", not "John DOE Robert".
  lemma MixedCaseWordsReadByLetter()
    ensures FormatName(Some(John()), Some("F " + "lAS" + "T " + "MId" + "dle"))
         == "John " + "doeAS" + "T " + "RobertJd" + "ddoee"
    ensures FormatName(Some(John()), Some("F " + "lAS" + "T " + "MId" + "dle")) != "John DOE Robert"
  {
    var n := John();
    JohnFSpace();
    JohnLowerLAS();
    JohnTSpace();
    JohnMId();
    JohnLowerDLE();
    LetterwiseAppend(n, "F ", "lAS");
    LetterwiseAppend(n, "F " + "lAS", "T ");
    LetterwiseAppend(n, "F " + "lAS" + "T ", "MId");
    LetterwiseAppend(n, "F " + "lAS" + "T " + "MId", "dle");
  }

  // "F X L Y" gives "John X Doe Y", not "John  Doe ".
  lemma UnknownLettersCopied()
    ensures FormatName(Some(John()), Some("F X" + " L " + "Y")) == "John X" + " Doe " + "Y"
    ensures FormatName(Some(John()), Some("F X" + " L " + "Y")) != "John  Doe "
  {
    var n := John();
    JohnFX();
    JohnSpaceLSpace();
    JohnY();
    LetterwiseAppend(n, "F X", " L ");
    LetterwiseAppend(n, "F X" + " L ", "Y");
  }

  // The pieces, at most three characters each, evaluated one at a time.

  lemma JohnFL() ensures Letterwise(John(), "F L") == "John Doe" {}
  lemma JohnLComma() ensures Letterwise(John(), "L, ") == "Doe, " {}
  lemma JohnFM() ensures Letterwise(John(), "F M") == "John Robert" {}
  lemma JohnLowerFirst() ensures Letterwise(John(), "f.") == "john." { JohnLowered(); }
  lemma JohnLowered() ensures AsciiCase.Lower("John") == "john" {}
  lemma JohnLowerLast() ensures Letterwise(John(), "l.") == "doe." { DoeLowered(); }
  lemma DoeLowered() ensures AsciiCase.Lower("Doe") == "doe" {}
  lemma JohnLowerMiddle() ensures Letterwise(John(), "m.") == "robert." { RobertLowered(); }
  lemma RobertLowered() ensures AsciiCase.Lower("Robert") == "robert" {}
  lemma JohnFirstInitial() ensures Letterwise(John(), "I.") == "J." {}
  lemma JohnMiddleInitial() ensures Letterwise(John(), "J.") == "R." {}
  lemma JohnLastInitial() ensures Letterwise(John(), "K.") == "D." {}
  lemma JohnLowerInitials() ensures Letterwise(John(), "ijk") == "jrd"
  {
    assert "ijk" == "i" + "jk";
    LetterwiseAppend(John(), "i", "jk");
    JohnLowerFirstInitial();
    JohnLowerMiddleLastInitials();
  }
  lemma JohnLowerFirstInitial() ensures Letterwise(John(), "i") == "j" {}
  lemma JohnLowerMiddleLastInitials() ensures Letterwise(John(), "jk") == "rd" {}
  lemma JohnFIR() ensures Letterwise(John(), "FIR") == "JohnJR" {}
  lemma JohnSTSpace() ensures Letterwise(John(), "ST ") == "ST " {}
  lemma JohnLA() ensures Letterwise(John(), "LA") == "DoeA" {}
  lemma JohnMID() ensures Letterwise(John(), "MID") == "RobertJD" {}
  lemma JohnDLE() ensures Letterwise(John(), "DLE") == "DDoeE" {}
  lemma JohnFSpace() ensures Letterwise(John(), "F ") == "John " {}
  lemma JohnLowerLAS() ensures Letterwise(John(), "lAS") == "doeAS" { DoeLowered(); }
  lemma JohnTSpace() ensures Letterwise(John(), "T ") == "T " {}
  lemma JohnMId() ensures Letterwise(John(), "MId") == "RobertJd" {}
  lemma JohnLowerDLE() ensures Letterwise(John(), "dle") == "ddoee"
  {
    assert "dle" == "d" + "le";
    LetterwiseAppend(John(), "d", "le");
    JohnLowerLE();
  }
  lemma JohnLowerLE() ensures Letterwise(John(), "le") == "doee" { DoeLowered(); }
  lemma JohnFX() ensures Letterwise(John(), "F X") == "John X" {}
  lemma JohnSpaceLSpace() ensures Letterwise(John(), " L ") == " Doe " {}
  lemma JohnY() ensures Letterwise(John(), "Y") == "Y" {}
  lemma JaneFM() ensures Letterwise(JaneNoMiddle(), "F M") == "Jane " {}
  lemma JaneFJ() ensures Letterwise(JaneNoMiddle(), "F J") == "Jane " {}
  lemma JaneSpaceL() ensures Letterwise(JaneNoMiddle(), " L") == " Doe" {}
  lemma JaneFirstInitial() ensures Letterwise(JaneNoMiddle(), "I.") == "J." {}
  lemma JaneMiddleInitial() ensures Letterwise(JaneNoMiddle(), "J.") == "." {}
  lemma JaneLastInitial() ensures Letterwise(JaneNoMiddle(), "K.") == "D." {}
  lemma EmptyFL() ensures Letterwise(EmptyName(), "F L") == " " {}
  lemma EmptyFirstInitial() ensures Letterwise(EmptyName(), "I.") == "." {}
  lemma EmptyLastInitial() ensures Letterwise(EmptyName(), "K.") == "." {}
}
