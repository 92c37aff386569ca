/** Facts about the ten hard-coded records, and what the filter returns
    for the queries "java" and "zzz" (app/src/api/searchApi.ts). Each text
    is handled piece by piece, in the pieces its definition is written in. */
module MockDataFacts {
  import opened Text
  import opened SearchTypes
  import opened SearchApi

  // Title1

  lemma Title1Piece1()
    ensures Avoids("React - A JavaScript library for ", {'z'})
  {
  }

  lemma Title1Piece2()
    ensures Avoids("building user interfaces", {'z'})
  {
  }

  /** No character of `Title1` lower-cases to a member of {'z'}. */
  lemma Title1Avoids()
    ensures Avoids(Title1, {'z'})
  {
    var p1 := "React - A JavaScript library for ";
    var p2 := "building user interfaces";
    Title1Piece1();
    Title1Piece2();
    AvoidsAppend(p1, p2, {'z'});
  }

  // Body1

  lemma Body1Piece1()
    ensures Avoids("React makes it painless to create ", {'z'})
  {
  }

  lemma Body1Piece2()
    ensures Avoids("interactive UIs. Design simple views ", {'z'})
  {
  }

  lemma Body1Piece3()
    ensures Avoids("for each state in your application, ", {'z'})
  {
  }

  lemma Body1Piece4()
    ensures Avoids("and React will efficiently update and ", {'z'})
  {
  }

  lemma Body1Piece5()
    ensures Avoids("render just the right components when ", {'z'})
  {
  }

  lemma Body1Piece6()
    ensures Avoids("your data changes.", {'z'})
  {
  }

  /** No character of `Body1` lower-cases to a member of {'z'}. */
  lemma Body1Avoids()
    ensures Avoids(Body1, {'z'})
  {
    var p1 := "React makes it painless to create ";
    var p2 := "interactive UIs. Design simple views ";
    var p3 := "for each state in your application, ";
    var p4 := "and React will efficiently update and ";
    var p5 := "render just the right components when ";
    var p6 := "your data changes.";
    Body1Piece1();
    Body1Piece2();
    Body1Piece3();
    Body1Piece4();
    Body1Piece5();
    Body1Piece6();
    AvoidsAppend(p1, p2, {'z'});
    AvoidsAppend(p1 + p2, p3, {'z'});
    AvoidsAppend(p1 + p2 + p3, p4, {'z'});
    AvoidsAppend(p1 + p2 + p3 + p4, p5, {'z'});
    AvoidsAppend(p1 + p2 + p3 + p4 + p5, p6, {'z'});
  }

  // Title2

  lemma Title2Piece1()
    ensures Avoids("TypeScript - JavaScript with syntax ", {'z'})
  {
  }

  lemma Title2Piece2()
    ensures Avoids("for types", {'z'})
  {
  }

  /** No character of `Title2` lower-cases to a member of {'z'}. */
  lemma Title2Avoids()
    ensures Avoids(Title2, {'z'})
  {
    var p1 := "TypeScript - JavaScript with syntax ";
    var p2 := "for types";
    Title2Piece1();
    Title2Piece2();
    AvoidsAppend(p1, p2, {'z'});
  }

  // Body2

  lemma Body2Piece1()
    ensures Avoids("TypeScript is a strongly typed ", {'z'})
  {
  }

  lemma Body2Piece2()
    ensures Avoids("programming language that builds on ", {'z'})
  {
  }

  lemma Body2Piece3()
    ensures Avoids("JavaScript, giving you better tooling ", {'z'})
  {
  }

  lemma Body2Piece4()
    ensures Avoids("at any scale.", {'z'})
  {
  }

  /** No character of `Body2` lower-cases to a member of {'z'}. */
  lemma Body2Avoids()
    ensures Avoids(Body2, {'z'})
  {
    var p1 := "TypeScript is a strongly typed ";
    var p2 := "programming language that builds on ";
    var p3 := "JavaScript, giving you better tooling ";
    var p4 := "at any scale.";
    Body2Piece1();
    Body2Piece2();
    Body2Piece3();
    Body2Piece4();
    AvoidsAppend(p1, p2, {'z'});
    AvoidsAppend(p1 + p2, p3, {'z'});
    AvoidsAppend(p1 + p2 + p3, p4, {'z'});
  }

  // Title3

  lemma Title3Piece1()
    ensures Avoids("Vite - Next Generation Frontend ", {'j', 'z'})
  {
  }

  lemma Title3Piece2()
    ensures Avoids("Tooling", {'j', 'z'})
  {
  }

  /** No character of `Title3` lower-cases to a member of {'j', 'z'}. */
  lemma Title3Avoids()
    ensures Avoids(Title3, {'j', 'z'})
  {
    var p1 := "Vite - Next Generation Frontend ";
    var p2 := "Tooling";
    Title3Piece1();
    Title3Piece2();
    AvoidsAppend(p1, p2, {'j', 'z'});
  }

  // Body3

  lemma Body3Piece1()
    ensures Avoids("Vite is a build tool that aims to ", {'j', 'z'})
  {
  }

  lemma Body3Piece2()
    ensures Avoids("provide a faster and leaner ", {'j', 'z'})
  {
  }

  lemma Body3Piece3()
    ensures Avoids("development experience for modern web ", {'j', 'z'})
  {
  }

  lemma Body3Piece4()
    ensures Avoids("projects.", {'a', 'z'})
  {
  }

  // Title4

  lemma Title4Piece1()
    ensures Avoids("Tailwind CSS - A utility-first CSS ", {'j', 'z'})
  {
  }

  lemma Title4Piece2()
    ensures Avoids("framework", {'j', 'z'})
  {
  }

  /** No character of `Title4` lower-cases to a member of {'j', 'z'}. */
  lemma Title4Avoids()
    ensures Avoids(Title4, {'j', 'z'})
  {
    var p1 := "Tailwind CSS - A utility-first CSS ";
    var p2 := "framework";
    Title4Piece1();
    Title4Piece2();
    AvoidsAppend(p1, p2, {'j', 'z'});
  }

  // Body4

  lemma Body4Piece1()
    ensures Avoids("Tailwind CSS is a utility-first CSS ", {'j', 'z'})
  {
  }

  lemma Body4Piece2()
    ensures Avoids("framework packed with classes that ", {'j', 'z'})
  {
  }

  lemma Body4Piece3()
    ensures Avoids("can be composed to build any design, ", {'j', 'z'})
  {
  }

  lemma Body4Piece4()
    ensures Avoids("directly in your markup.", {'j', 'z'})
  {
  }

  /** No character of `Body4` lower-cases to a member of {'j', 'z'}. */
  lemma Body4Avoids()
    ensures Avoids(Body4, {'j', 'z'})
  {
    var p1 := "Tailwind CSS is a utility-first CSS ";
    var p2 := "framework packed with classes that ";
    var p3 := "can be composed to build any design, ";
    var p4 := "directly in your markup.";
    Body4Piece1();
    Body4Piece2();
    Body4Piece3();
    Body4Piece4();
    AvoidsAppend(p1, p2, {'j', 'z'});
    AvoidsAppend(p1 + p2, p3, {'j', 'z'});
    AvoidsAppend(p1 + p2 + p3, p4, {'j', 'z'});
  }

  // Title5

  lemma Title5Piece1()
    ensures Avoids("JavaScript - The Programming Language ", {'z'})
  {
  }

  lemma Title5Piece2()
    ensures Avoids("of the Web", {'z'})
  {
  }

  /** No character of `Title5` lower-cases to a member of {'z'}. */
  lemma Title5Avoids()
    ensures Avoids(Title5, {'z'})
  {
    var p1 := "JavaScript - The Programming Language ";
    var p2 := "of the Web";
    Title5Piece1();
    Title5Piece2();
    AvoidsAppend(p1, p2, {'z'});
  }

  // Body5

  lemma Body5Piece1()
    ensures Avoids("JavaScript is a lightweight, ", {'z'})
  {
  }

  lemma Body5Piece2()
    ensures Avoids("interpreted, or just-in-time compiled ", {'z'})
  {
  }

  lemma Body5Piece3()
    ensures Avoids("programming language with first-class ", {'z'})
  {
  }

  lemma Body5Piece4()
    ensures Avoids("functions.", {'z'})
  {
  }

  /** No character of `Body5` lower-cases to a member of {'z'}. */
  lemma Body5Avoids()
    ensures Avoids(Body5, {'z'})
  {
    var p1 := "JavaScript is a lightweight, ";
    var p2 := "interpreted, or just-in-time compiled ";
    var p3 := "programming language with first-class ";
    var p4 := "functions.";
    Body5Piece1();
    Body5Piece2();
    Body5Piece3();
    Body5Piece4();
    AvoidsAppend(p1, p2, {'z'});
    AvoidsAppend(p1 + p2, p3, {'z'});
    AvoidsAppend(p1 + p2 + p3, p4, {'z'});
  }

  // Title6

  lemma Title6Piece1()
    ensures Avoids("HTML - HyperText Markup Language", {'j', 'z'})
  {
  }

  /** No character of `Title6` lower-cases to a member of {'j', 'z'}. */
  lemma Title6Avoids()
    ensures Avoids(Title6, {'j', 'z'})
  {
    var p1 := "HTML - HyperText Markup Language";
    Title6Piece1();
  }

  // Body6

  lemma Body6Piece1()
    ensures Avoids("HTML is the standard markup language ", {'j', 'z'})
  {
  }

  lemma Body6Piece2()
    ensures Avoids("for documents designed to be ", {'j', 'z'})
  {
  }

  lemma Body6Piece3()
    ensures Avoids("displayed in a web browser.", {'j', 'z'})
  {
  }

  /** No character of `Body6` lower-cases to a member of {'j', 'z'}. */
  lemma Body6Avoids()
    ensures Avoids(Body6, {'j', 'z'})
  {
    var p1 := "HTML is the standard markup language ";
    var p2 := "for documents designed to be ";
    var p3 := "displayed in a web browser.";
    Body6Piece1();
    Body6Piece2();
    Body6Piece3();
    AvoidsAppend(p1, p2, {'j', 'z'});
    AvoidsAppend(p1 + p2, p3, {'j', 'z'});
  }

  // Title7

  lemma Title7Piece1()
    ensures Avoids("CSS - Cascading Style Sheets", {'j', 'z'})
  {
  }

  /** No character of `Title7` lower-cases to a member of {'j', 'z'}. */
  lemma Title7Avoids()
    ensures Avoids(Title7, {'j', 'z'})
  {
    var p1 := "CSS - Cascading Style Sheets";
    Title7Piece1();
  }

  // Body7

  lemma Body7Piece1()
    ensures Avoids("CSS is a style sheet language used ", {'j', 'z'})
  {
  }

  lemma Body7Piece2()
    ensures Avoids("for describing the presentation of a ", {'j', 'z'})
  {
  }

  lemma Body7Piece3()
    ensures Avoids("document written in HTML or XML.", {'j', 'z'})
  {
  }

  /** No character of `Body7` lower-cases to a member of {'j', 'z'}. */
  lemma Body7Avoids()
    ensures Avoids(Body7, {'j', 'z'})
  {
    var p1 := "CSS is a style sheet language used ";
    var p2 := "for describing the presentation of a ";
    var p3 := "document written in HTML or XML.";
    Body7Piece1();
    Body7Piece2();
    Body7Piece3();
    AvoidsAppend(p1, p2, {'j', 'z'});
    AvoidsAppend(p1 + p2, p3, {'j', 'z'});
  }

  // Title8

  lemma Title8Piece1()
    ensures Avoids("Node.js - JavaScript runtime built on ", {'z'})
  {
  }

  lemma Title8Piece2()
    ensures Avoids("Chrome V8", {'z'})
  {
  }

  /** No character of `Title8` lower-cases to a member of {'z'}. */
  lemma Title8Avoids()
    ensures Avoids(Title8, {'z'})
  {
    var p1 := "Node.js - JavaScript runtime built on ";
    var p2 := "Chrome V8";
    Title8Piece1();
    Title8Piece2();
    AvoidsAppend(p1, p2, {'z'});
  }

  // Body8

  lemma Body8Piece1()
    ensures Avoids("Node.js is a JavaScript runtime built ", {'z'})
  {
  }

  lemma Body8Piece2()
    ensures Avoids("on Chrome V8 JavaScript engine. ", {'z'})
  {
  }

  lemma Body8Piece3()
    ensures Avoids("Node.js uses an event-driven, ", {'z'})
  {
  }

  lemma Body8Piece4()
    ensures Avoids("non-blocking I/O model.", {'z'})
  {
  }

  /** No character of `Body8` lower-cases to a member of {'z'}. */
  lemma Body8Avoids()
    ensures Avoids(Body8, {'z'})
  {
    var p1 := "Node.js is a JavaScript runtime built ";
    var p2 := "on Chrome V8 JavaScript engine. ";
    var p3 := "Node.js uses an event-driven, ";
    var p4 := "non-blocking I/O model.";
    Body8Piece1();
    Body8Piece2();
    Body8Piece3();
    Body8Piece4();
    AvoidsAppend(p1, p2, {'z'});
    AvoidsAppend(p1 + p2, p3, {'z'});
    AvoidsAppend(p1 + p2 + p3, p4, {'z'});
  }

  // Title9

  lemma Title9Piece1()
    ensures Avoids("npm - Node Package Manager", {'z'})
  {
  }

  /** No character of `Title9` lower-cases to a member of {'z'}. */
  lemma Title9Avoids()
    ensures Avoids(Title9, {'z'})
  {
    var p1 := "npm - Node Package Manager";
    Title9Piece1();
  }

  // Body9

  lemma Body9Piece1()
    ensures Avoids("npm is the package manager for ", {'z'})
  {
  }

  lemma Body9Piece2()
    ensures Avoids("JavaScript and the world largest ", {'z'})
  {
  }

  lemma Body9Piece3()
    ensures Avoids("software registry.", {'z'})
  {
  }

  /** No character of `Body9` lower-cases to a member of {'z'}. */
  lemma Body9Avoids()
    ensures Avoids(Body9, {'z'})
  {
    var p1 := "npm is the package manager for ";
    var p2 := "JavaScript and the world largest ";
    var p3 := "software registry.";
    Body9Piece1();
    Body9Piece2();
    Body9Piece3();
    AvoidsAppend(p1, p2, {'z'});
    AvoidsAppend(p1 + p2, p3, {'z'});
  }

  // Title10

  lemma Title10Piece1()
    ensures Avoids("Git - Distributed version control ", {'j', 'z'})
  {
  }

  lemma Title10Piece2()
    ensures Avoids("system", {'j', 'z'})
  {
  }

  /** No character of `Title10` lower-cases to a member of {'j', 'z'}. */
  lemma Title10Avoids()
    ensures Avoids(Title10, {'j', 'z'})
  {
    var p1 := "Git - Distributed version control ";
    var p2 := "system";
    Title10Piece1();
    Title10Piece2();
    AvoidsAppend(p1, p2, {'j', 'z'});
  }

  // Body10

  lemma Body10Piece1()
    ensures Avoids("Git is a distributed version control ", {'j', 'z'})
  {
  }

  lemma Body10Piece2()
    ensures Avoids("system for tracking changes in source ", {'j', 'z'})
  {
  }

  lemma Body10Piece3()
    ensures Avoids("code during software development.", {'j', 'z'})
  {
  }

  /** No character of `Body10` lower-cases to a member of {'j', 'z'}. */
  lemma Body10Avoids()
    ensures Avoids(Body10, {'j', 'z'})
  {
    var p1 := "Git is a distributed version control ";
    var p2 := "system for tracking changes in source ";
    var p3 := "code during software development.";
    Body10Piece1();
    Body10Piece2();
    Body10Piece3();
    AvoidsAppend(p1, p2, {'j', 'z'});
    AvoidsAppend(p1 + p2, p3, {'j', 'z'});
  }

  /** `Title1` contains "java" once lower-cased. */
  lemma Title1HasJava()
    ensures Contains(Lower(Title1), "java")
  {
    var p1 := "React - A JavaScript library for ";
    var p2 := "building user interfaces";
    LowerOccurs(p1, "java", 10);
    ContainsLeft(Lower(p1), Lower(p2), "java");
    LowerAppend(p1, p2);
  }

  /** `Title2` contains "java" once lower-cased. */
  lemma Title2HasJava()
    ensures Contains(Lower(Title2), "java")
  {
    var p1 := "TypeScript - JavaScript with syntax ";
    var p2 := "for types";
    LowerOccurs(p1, "java", 13);
    ContainsLeft(Lower(p1), Lower(p2), "java");
    LowerAppend(p1, p2);
  }

  /** `Title5` contains "java" once lower-cased. */
  lemma Title5HasJava()
    ensures Contains(Lower(Title5), "java")
  {
    var p1 := "JavaScript - The Programming Language ";
    var p2 := "of the Web";
    LowerOccurs(p1, "java", 0);
    ContainsLeft(Lower(p1), Lower(p2), "java");
    LowerAppend(p1, p2);
  }

  /** `Title8` contains "java" once lower-cased. */
  lemma Title8HasJava()
    ensures Contains(Lower(Title8), "java")
  {
    var p1 := "Node.js - JavaScript runtime built on ";
    var p2 := "Chrome V8";
    LowerOccurs(p1, "java", 10);
    ContainsLeft(Lower(p1), Lower(p2), "java");
    LowerAppend(p1, p2);
  }

  /** `Body9` contains "java" once lower-cased. */
  lemma Body9HasJava()
    ensures Contains(Lower(Body9), "java")
  {
    var p1 := "npm is the package manager for ";
    var p2 := "JavaScript and the world largest ";
    var p3 := "software registry.";
    LowerOccurs(p2, "java", 0);
    ContainsRight(Lower(p1), Lower(p2), "java");
    ContainsLeft(Lower(p1) + Lower(p2), Lower(p3), "java");
    LowerAppend(p1, p2);
    LowerAppend(p1 + p2, p3);
  }

  /** `Body3` has no 'z', and no "java" once lower-cased, although its
      last word "projects." has a 'j': the other pieces have no 'j', that
      word has no 'a', and the space before it keeps an occurrence from
      straddling the seam. */
  lemma Body3Facts()
    ensures Avoids(Body3, {'z'})
    ensures !Contains(Lower(Body3), "java")
  {
    var p1 := "Vite is a build tool that aims to ";
    var p2 := "provide a faster and leaner ";
    var p3 := "development experience for modern web ";
    var p4 := "projects.";
    Body3Piece1();
    Body3Piece2();
    Body3Piece3();
    Body3Piece4();
    AvoidsAppend(p1, p2, {'j', 'z'});
    AvoidsAppend(p1 + p2, p3, {'j', 'z'});
    var x := p1 + p2 + p3;
    assert Avoids(x, {'z'});
    assert Avoids(p4, {'z'});
    AvoidsAppend(x, p4, {'z'});
    AvoidsAbsent(x, "java", {'j', 'z'}, 0);
    AvoidsAbsent(p4, "java", {'a', 'z'}, 1);
    LowerAppend(x, p4);
    assert Lower(x)[|Lower(x)| - 1] == ' ';
    SeamAbsent(Lower(x), Lower(p4), "java");
  }

  /** A record none of whose characters lower-cases into `cs` matches no
      query that has a character from `cs`. */
  lemma RecordMisses(r: SearchResult, q: string, cs: set<char>, k: nat)
    requires k < |q| && q[k] in cs
    requires Avoids(r.title, cs) && Avoids(r.body, cs)
    ensures !Matches(r, q)
  {
    AvoidsAbsent(r.title, q, cs, k);
    AvoidsAbsent(r.body, q, cs, k);
  }

  /** Records 1, 2, 5, 8 and 9 mention "java" in some letter case. */
  lemma JavaMatches()
    ensures Matches(MockData[0], "java") && Matches(MockData[1], "java")
    ensures Matches(MockData[4], "java") && Matches(MockData[7], "java")
    ensures Matches(MockData[8], "java")
  {
    Title1HasJava();
    Title2HasJava();
    Title5HasJava();
    Title8HasJava();
    Body9HasJava();
  }

  /** Records 3, 4, 6, 7 and 10 do not. */
  lemma JavaMisses()
    ensures !Matches(MockData[2], "java") && !Matches(MockData[3], "java")
    ensures !Matches(MockData[5], "java") && !Matches(MockData[6], "java")
    ensures !Matches(MockData[9], "java")
  {
    Title3Avoids();
    Body3Facts();
    AvoidsAbsent(Title3, "java", {'j', 'z'}, 0);
    Title4Avoids();
    Body4Avoids();
    RecordMisses(MockData[3], "java", {'j', 'z'}, 0);
    Title6Avoids();
    Body6Avoids();
    RecordMisses(MockData[5], "java", {'j', 'z'}, 0);
    Title7Avoids();
    Body7Avoids();
    RecordMisses(MockData[6], "java", {'j', 'z'}, 0);
    Title10Avoids();
    Body10Avoids();
    RecordMisses(MockData[9], "java", {'j', 'z'}, 0);
  }

  /** No record has a 'z' in any letter case, so none matches "zzz". */
  lemma ZzzMisses()
    ensures forall k | 0 <= k < |MockData| :: !Matches(MockData[k], "zzz")
  {
    ZzzMissesLow();
    ZzzMissesHigh();
  }

  lemma ZzzMissesLow()
    ensures forall k | 0 <= k < 5 :: !Matches(MockData[k], "zzz")
  {
    Title1Avoids();
    Body1Avoids();
    RecordMisses(MockData[0], "zzz", {'z'}, 0);
    Title2Avoids();
    Body2Avoids();
    RecordMisses(MockData[1], "zzz", {'z'}, 0);
    Title3Avoids();
    Body3Facts();
    AvoidsAbsent(Title3, "zzz", {'j', 'z'}, 0);
    AvoidsAbsent(Body3, "zzz", {'z'}, 0);
    Title4Avoids();
    Body4Avoids();
    RecordMisses(MockData[3], "zzz", {'j', 'z'}, 0);
    Title5Avoids();
    Body5Avoids();
    RecordMisses(MockData[4], "zzz", {'z'}, 0);
  }

  lemma ZzzMissesHigh()
    ensures forall k | 5 <= k < 10 :: !Matches(MockData[k], "zzz")
  {
    Title6Avoids();
    Body6Avoids();
    RecordMisses(MockData[5], "zzz", {'j', 'z'}, 0);
    Title7Avoids();
    Body7Avoids();
    RecordMisses(MockData[6], "zzz", {'j', 'z'}, 0);
    Title8Avoids();
    Body8Avoids();
    RecordMisses(MockData[7], "zzz", {'z'}, 0);
    Title9Avoids();
    Body9Avoids();
    RecordMisses(MockData[8], "zzz", {'z'}, 0);
    Title10Avoids();
    Body10Avoids();
    RecordMisses(MockData[9], "zzz", {'j', 'z'}, 0);
  }

  // The filter over the data, from the last record back to the first.

  lemma JavaFrom9()
    ensures FilterRecords(MockData[9..], "java") == []
  {
    JavaMisses();
    var d := MockData[9..];
    assert d[0] == MockData[9] && d[1..] == MockData[10..];
    FilterMiss(d, "java");
    assert FilterRecords(MockData[10..], "java") == [];
  }

  lemma JavaFrom8()
    ensures FilterRecords(MockData[8..], "java") == [MockData[8]]
  {
    JavaMatches();
    var d := MockData[8..];
    assert d[0] == MockData[8] && d[1..] == MockData[9..];
    FilterHit(d, "java");
    JavaFrom9();
  }

  lemma JavaFrom7()
    ensures FilterRecords(MockData[7..], "java") == [MockData[7], MockData[8]]
  {
    JavaMatches();
    var d := MockData[7..];
    assert d[0] == MockData[7] && d[1..] == MockData[8..];
    FilterHit(d, "java");
    JavaFrom8();
  }

  lemma JavaFrom6()
    ensures FilterRecords(MockData[6..], "java") == [MockData[7], MockData[8]]
  {
    JavaMisses();
    var d := MockData[6..];
    assert d[0] == MockData[6] && d[1..] == MockData[7..];
    FilterMiss(d, "java");
    JavaFrom7();
  }

  lemma JavaFrom5()
    ensures FilterRecords(MockData[5..], "java") == [MockData[7], MockData[8]]
  {
    JavaMisses();
    var d := MockData[5..];
    assert d[0] == MockData[5] && d[1..] == MockData[6..];
    FilterMiss(d, "java");
    JavaFrom6();
  }

  lemma JavaFrom4()
    ensures FilterRecords(MockData[4..], "java") == [MockData[4], MockData[7], MockData[8]]
  {
    JavaMatches();
    var d := MockData[4..];
    assert d[0] == MockData[4] && d[1..] == MockData[5..];
    FilterHit(d, "java");
    JavaFrom5();
  }

  lemma JavaFrom3()
    ensures FilterRecords(MockData[3..], "java") == [MockData[4], MockData[7], MockData[8]]
  {
    JavaMisses();
    var d := MockData[3..];
    assert d[0] == MockData[3] && d[1..] == MockData[4..];
    FilterMiss(d, "java");
    JavaFrom4();
  }

  lemma JavaFrom2()
    ensures FilterRecords(MockData[2..], "java") == [MockData[4], MockData[7], MockData[8]]
  {
    JavaMisses();
    var d := MockData[2..];
    assert d[0] == MockData[2] && d[1..] == MockData[3..];
    FilterMiss(d, "java");
    JavaFrom3();
  }

  lemma JavaFrom1()
    ensures FilterRecords(MockData[1..], "java") == [MockData[1], MockData[4], MockData[7], MockData[8]]
  {
    JavaMatches();
    var d := MockData[1..];
    assert d[0] == MockData[1] && d[1..] == MockData[2..];
    FilterHit(d, "java");
    JavaFrom2();
  }

  lemma JavaFrom0()
    ensures FilterRecords(MockData[0..], "java") == [MockData[0], MockData[1], MockData[4], MockData[7], MockData[8]]
  {
    JavaMatches();
    var d := MockData[0..];
    assert d[0] == MockData[0] && d[1..] == MockData[1..];
    FilterHit(d, "java");
    JavaFrom1();
  }

  /** `filterResults("java")` returns records 1, 2, 5, 8 and 9, in that
      order. */
  lemma FilterJava()
    ensures FilterResults("java") == [MockData[0], MockData[1], MockData[4], MockData[7], MockData[8]]
    ensures Ids(FilterResults("java")) == [1, 2, 5, 8, 9]
  {
    JavaFrom0();
    assert MockData[0..] == MockData;
    assert Lower("java") == "java";
    assert !IsWhitespace("java"[0]);
  }

  /** `filterResults("zzz")` returns nothing. */
  lemma FilterZzz()
    ensures FilterResults("zzz") == []
  {
    ZzzMisses();
    FilterNone(MockData, "zzz");
    assert Lower("zzz") == "zzz";
  }
}
