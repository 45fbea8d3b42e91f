/** Names like "authenc(hmac(sha1),cbc(aes))": the parser inverts the printer. */
module TemplateName {
  import opened Options

  /** isalnum, '-' and '_'. */
  predicate WordChar(c: char) { 'a' <= c <= 'z' || 'A' <= c <= 'Z' || '0' <= c <= '9' || c == '-' || c == '_' }

  predicate Digit(c: char) { '0' <= c <= '9' }

  predicate Word(w: string) { forall i :: 0 <= i < |w| ==> WordChar(w[i]) }

  predicate Digits(w: string) { forall i :: 0 <= i < |w| ==> Digit(w[i]) }

  /** An attribute: the text of an algorithm name or of a number. */
  datatype Attr = Alg(text: string) | Num(text: string)

  datatype Parsed = Parsed(template: string, attrs: seq<Attr>)

  // The parser as a function of what is left of the text

  function WordLen(s: string): (n: nat)
    ensures n <= |s| && Word(s[..n]) && (n < |s| ==> !WordChar(s[n]))
  {
    if s == [] || !WordChar(s[0]) then 0
    else
      var n := WordLen(s[1..]);
      assert forall i :: 0 < i < n + 1 ==> s[i] == s[1..][..n][i - 1];
      n + 1
  }

  /** The length of what is left up to the parenthesis that closes `depth` further ones and this one. */
  function CloseLen(s: string, depth: nat): (n: Option<nat>)
    ensures n.Some? ==> 1 <= n.value <= |s|
  {
    if s == [] then None
    else if s[0] == ')' && depth == 0 then Some(1)
    else
      var n := CloseLen(s[1..], if s[0] == '(' then depth + 1 else if s[0] == ')' then depth - 1 else depth);
      if n == None then None else Some(n.value + 1)
  }

  /** One argument: a word, with a parenthesised text or without. */
  function ArgLen(s: string): (n: Option<nat>)
    ensures n.Some? ==> 1 <= n.value <= |s|
  {
    var w := WordLen(s);
    if w < |s| && s[w] == '(' then
      var n := CloseLen(s[w + 1..], 0);
      if n == None then None else Some(w + 1 + n.value)
    else if w == 0 then None
    else Some(w)
  }

  function MakeAttr(text: string): Attr { if Digits(text) then Num(text) else Alg(text) }

  /** The arguments from here on; fewer than `room` are allowed. */
  function ParseArgs(s: string, room: nat): Option<seq<Attr>>
    decreases |s|
  {
    var n := ArgLen(s);
    if n == None || room <= 1 || n.value == |s| then None
    else
      var attr, rest := MakeAttr(s[..n.value]), s[n.value..];
      if rest[0] == ')' then Some([attr])
      else if rest[0] != ',' then None
      else
        var more := ParseArgs(rest[1..], room - 1);
        if more == None then None else Some([attr] + more.value)
  }

  /** cryptomgr_schedule_probe. */
  function Parse(s: string, maxAttrs: nat): Option<Parsed> {
    var w := WordLen(s);
    if w == 0 || w == |s| || s[w] != '(' then None
    else
      var attrs := ParseArgs(s[w + 1..], maxAttrs);
      if attrs == None then None else Some(Parsed(s[..w], attrs.value))
  }

  // The printer

  /** The depth after a text, unless it closes more than it opened. */
  function Scan(s: string, depth: nat): Option<nat> {
    if s == [] then Some(depth)
    else if s[0] == '(' then Scan(s[1..], depth + 1)
    else if s[0] == ')' then if depth == 0 then None else Scan(s[1..], depth - 1)
    else Scan(s[1..], depth)
  }

  predicate Balanced(s: string) { Scan(s, 0) == Some(0) }

  /** An argument: a word, or a name with a balanced text in parentheses. */
  datatype Arg = Plain(word: string) | Nested(word: string, inner: string)

  predicate GoodArg(a: Arg) {
    Word(a.word) && if a.Plain? then a.word != [] else Balanced(a.inner)
  }

  function PrintArg(a: Arg): string { if a.Plain? then a.word else a.word + "(" + a.inner + ")" }

  function PrintArgs(args: seq<Arg>): string
    requires args != []
  {
    if |args| == 1 then PrintArg(args[0]) else PrintArg(args[0]) + "," + PrintArgs(args[1..])
  }

  function Print(template: string, args: seq<Arg>): string
    requires args != []
  {
    template + "(" + PrintArgs(args) + ")"
  }

  /** What the parser makes of an argument: a number if it is a word of digits. */
  function Meaning(a: Arg): Attr { if a.Plain? && Digits(a.word) then Num(a.word) else Alg(PrintArg(a)) }

  function Meanings(args: seq<Arg>): seq<Attr> { seq(|args|, i requires 0 <= i < |args| => Meaning(args[i])) }

  // Round trip

  lemma {:induction false} WordStops(w: string, t: string)
    requires Word(w) && (t == [] || !WordChar(t[0]))
    ensures WordLen(w + t) == |w|
    decreases |w|
  {
    if w == [] {
      assert w + t == t;
    } else {
      assert (w + t)[1..] == w[1..] + t;
      WordStops(w[1..], t);
    }
  }

  /** The search for the closing parenthesis passes over a text as `Scan` does. */
  lemma {:induction false} ClosePasses(c: string, t: string, depth: nat, after: nat)
    requires Scan(c, depth) == Some(after)
    ensures var n := CloseLen(t, after); CloseLen(c + t, depth) == if n == None then None else Some(|c| + n.value)
    decreases |c|
  {
    if c == [] {
      assert c + t == t;
    } else {
      assert (c + t)[1..] == c[1..] + t;
      ClosePasses(c[1..], t, if c[0] == '(' then depth + 1 else if c[0] == ')' then depth - 1 else depth, after);
    }
  }

  lemma NestedRead(word: string, inner: string, t: string)
    requires Word(word) && Balanced(inner)
    ensures ArgLen(word + "(" + inner + ")" + t) == Some(|word| + |inner| + 2)
  {
    var s := "(" + inner + ")" + t;
    assert word + "(" + inner + ")" + t == word + s;
    WordStops(word, s);
    assert (word + s)[|word| + 1..] == inner + (")" + t);
    ClosePasses(inner, ")" + t, 0, 0);
    hide WordLen;
  }

  lemma ArgRead(a: Arg, t: string)
    requires GoodArg(a) && t != [] && (t[0] == ',' || t[0] == ')')
    ensures ArgLen(PrintArg(a) + t) == Some(|PrintArg(a)|) && MakeAttr(PrintArg(a)) == Meaning(a)
  {
    if a.Plain? {
      WordStops(a.word, t);
    } else {
      hide ArgLen; hide Word; hide Balanced;
      NestedRead(a.word, a.inner, t);
      assert PrintArg(a)[|a.word|] == '(';
    }
  }

  /** One argument of a list, and what follows it. */
  lemma ArgsStep(a: Arg, t: string, room: nat)
    requires GoodArg(a) && room > 1 && t != [] && (t[0] == ',' || t[0] == ')')
    ensures t[0] == ')' ==> ParseArgs(PrintArg(a) + t, room) == Some([Meaning(a)])
    ensures t[0] == ',' ==> var more := ParseArgs(t[1..], room - 1);
      ParseArgs(PrintArg(a) + t, room) == if more == None then None else Some([Meaning(a)] + more.value)
  {
    hide ArgLen; hide PrintArg; hide MakeAttr; hide Meaning; hide GoodArg;
    ArgRead(a, t);
    var s, n := PrintArg(a) + t, |PrintArg(a)|;
    assert s[..n] == PrintArg(a) && s[n..] == t;
  }

  lemma {:induction false} ArgsRead(args: seq<Arg>, t: string, room: nat)
    requires 0 < |args| < room && forall i :: 0 <= i < |args| ==> GoodArg(args[i])
    ensures ParseArgs(PrintArgs(args) + ")" + t, room) == Some(Meanings(args))
    decreases |args|
  {
    hide ParseArgs; hide PrintArg; hide Meaning; hide GoodArg;
    var a := args[0];
    if |args| == 1 {
      assert PrintArgs(args) + ")" + t == PrintArg(a) + (")" + t);
      ArgsStep(a, ")" + t, room);
      assert Meanings(args) == [Meaning(a)];
    } else {
      var rest := PrintArgs(args[1..]) + ")" + t;
      assert PrintArgs(args) + ")" + t == PrintArg(a) + ("," + rest);
      assert ("," + rest)[1..] == rest;
      ArgsStep(a, "," + rest, room);
      ArgsRead(args[1..], t, room - 1);
      assert Meanings(args) == [Meaning(a)] + Meanings(args[1..]);
    }
  }

  /** Parsing what was printed gives back the template, the arguments and their kinds, whatever follows. */
  lemma ParsePrint(template: string, args: seq<Arg>, t: string, maxAttrs: nat)
    requires Word(template) && template != [] && 0 < |args| < maxAttrs
    requires forall i :: 0 <= i < |args| ==> GoodArg(args[i])
    ensures Parse(Print(template, args) + t, maxAttrs) == Some(Parsed(template, Meanings(args)))
  {
    hide ParseArgs; hide PrintArgs; hide Meanings;
    var u := PrintArgs(args) + ")" + t;
    var s := Print(template, args) + t;
    assert s == template + ("(" + u);
    WordStops(template, "(" + u);
    assert s[..|template|] == template && s[|template| + 1..] == u;
    ArgsRead(args, t, maxAttrs);
  }

  // Nothing else is parsed

  lemma {:induction false} CloseIsBalanced(s: string, depth: nat)
    requires CloseLen(s, depth).Some?
    ensures var n := CloseLen(s, depth).value; s[n - 1] == ')' && Scan(s[..n - 1], depth) == Some(0)
    decreases |s|
  {
    if !(s[0] == ')' && depth == 0) {
      var depth' := if s[0] == '(' then depth + 1 else if s[0] == ')' then depth - 1 else depth;
      CloseIsBalanced(s[1..], depth');
      var n := CloseLen(s, depth).value;
      assert s[..n - 1][1..] == s[1..][..n - 2];
    }
  }

  lemma ArgIs(s: string) returns (a: Arg)
    requires ArgLen(s).Some?
    ensures GoodArg(a) && PrintArg(a) == s[..ArgLen(s).value]
  {
    var w := WordLen(s);
    hide WordLen; hide CloseLen; hide Scan;
    if w < |s| && s[w] == '(' {
      var u := s[w + 1..];
      var n := CloseLen(u, 0).value;
      CloseIsBalanced(u, 0);
      a := Nested(s[..w], u[..n - 1]);
      assert s[..w + 1 + n] == s[..w] + "(" + u[..n - 1] + ")";
    } else {
      a := Plain(s[..w]);
    }
  }

  /** A text is the list of arguments that the parser reads, a parenthesis, and more. */
  ghost predicate Lists(s: string, args: seq<Arg>, t: string, room: nat) {
    && 0 < |args| < room && (forall i :: 0 <= i < |args| ==> GoodArg(args[i]))
    && s == PrintArgs(args) + ")" + t
  }

  lemma ListsOne(a: Arg, rest: string, room: nat)
    requires GoodArg(a) && room > 1 && rest != [] && rest[0] == ')'
    ensures Lists(PrintArg(a) + rest, [a], rest[1..], room)
  {
    hide PrintArg; hide GoodArg;
    assert rest == ")" + rest[1..];
  }

  lemma ListsMore(a: Arg, rest: string, more: seq<Arg>, t: string, room: nat)
    requires GoodArg(a) && rest != [] && rest[0] == ',' && room > 1 && Lists(rest[1..], more, t, room - 1)
    ensures Lists(PrintArg(a) + rest, [a] + more, t, room)
  {
    hide PrintArg; hide GoodArg;
    assert ([a] + more)[1..] == more;
    assert rest == "," + rest[1..];
  }

  lemma ArgsHead(s: string, room: nat) returns (a: Arg, rest: string)
    requires ParseArgs(s, room).Some?
    ensures GoodArg(a) && s == PrintArg(a) + rest && rest != [] && room > 1 && |rest| < |s|
    ensures rest[0] == ')' || (rest[0] == ',' && ParseArgs(rest[1..], room - 1).Some?)
  {
    a := ArgIs(s);
    hide ArgLen; hide PrintArg; hide GoodArg; hide MakeAttr;
    rest := s[ArgLen(s).value..];
  }

  lemma {:induction false} ArgsAre(s: string, room: nat) returns (args: seq<Arg>, t: string)
    requires ParseArgs(s, room).Some?
    ensures Lists(s, args, t, room)
    decreases |s|
  {
    var a, rest := ArgsHead(s, room);
    hide *;
    if rest[0] == ')' {
      args, t := [a], rest[1..];
      ListsOne(a, rest, room);
    } else {
      var more;
      more, t := ArgsAre(rest[1..], room - 1);
      args := [a] + more;
      ListsMore(a, rest, more, t, room);
    }
  }

  /** A template, and at least one and fewer than `maxAttrs` arguments for it. */
  predicate Printable(template: string, args: seq<Arg>, maxAttrs: nat) {
    && Word(template) && template != [] && 0 < |args| < maxAttrs
    && forall i :: 0 <= i < |args| ==> GoodArg(args[i])
  }

  lemma ParsedIs(s: string, maxAttrs: nat) returns (template: string, args: seq<Arg>)
    requires Parse(s, maxAttrs).Some?
    ensures Printable(template, args, maxAttrs) && Print(template, args) <= s
  {
    hide ParseArgs; hide PrintArgs; hide GoodArg;
    var w := WordLen(s);
    template := s[..w];
    var t;
    args, t := ArgsAre(s[w + 1..], maxAttrs);
    assert s == template + "(" + s[w + 1..];
    assert s == Print(template, args) + t;
  }

  /** A text is parsed exactly if it begins with what is printed for a template and its arguments. */
  lemma ParsesExactly(s: string, maxAttrs: nat)
    ensures Parse(s, maxAttrs).Some? <==>
      exists template, args :: Printable(template, args, maxAttrs) && Print(template, args) <= s
  {
    hide Parse; hide Print;
    if Parse(s, maxAttrs).Some? {
      var template, args := ParsedIs(s, maxAttrs);
    }
    forall template, args | Printable(template, args, maxAttrs) && Print(template, args) <= s
      ensures Parse(s, maxAttrs).Some?
    {
      var n := |Print(template, args)|;
      assert s == Print(template, args) + s[n..];
      ParsePrint(template, args, s[n..], maxAttrs);
    }
  }

  /** With `maxAttrs` arguments or more the text is refused. */
  lemma TooManyRefused(template: string, args: seq<Arg>, maxAttrs: nat)
    requires Word(template) && template != [] && args != [] && |args| >= maxAttrs
    requires forall i :: 0 <= i < |args| ==> GoodArg(args[i])
    ensures Parse(Print(template, args), maxAttrs) == None
  {
    hide ParseArgs; hide PrintArgs;
    var t := PrintArgs(args) + ")";
    var s := Print(template, args);
    assert s == template + ("(" + t);
    WordStops(template, "(" + t);
    assert s[..|template|] == template && s[|template| + 1..] == t;
    ArgsTooMany(args, maxAttrs);
  }

  lemma {:induction false} ArgsTooMany(args: seq<Arg>, room: nat)
    requires |args| >= room && args != [] && forall i :: 0 <= i < |args| ==> GoodArg(args[i])
    ensures ParseArgs(PrintArgs(args) + ")", room) == None
    decreases |args|
  {
    hide ParseArgs; hide PrintArg; hide Meaning; hide GoodArg;
    if room <= 1 {
      NoRoom(PrintArgs(args) + ")", room);
    } else {
      var a, rest := args[0], PrintArgs(args[1..]) + ")";
      assert PrintArgs(args) + ")" == PrintArg(a) + ("," + rest);
      assert ("," + rest)[1..] == rest;
      ArgsStep(a, "," + rest, room);
      ArgsTooMany(args[1..], room - 1);
    }
  }

  lemma NoRoom(s: string, room: nat)
    requires room <= 1
    ensures ParseArgs(s, room) == None
  {}

  // Names nested to any depth

  datatype Name = Leaf(word: string) | Inst(word: string, args: Names)
  datatype Names = One(name: Name) | More(name: Name, rest: Names)

  function PrintName(n: Name): string
    decreases n
  {
    match n
    case Leaf(w) => w
    case Inst(w, args) => w + "(" + PrintNames(args) + ")"
  }

  function PrintNames(ns: Names): string
    decreases ns
  {
    match ns
    case One(n) => PrintName(n)
    case More(n, rest) => PrintName(n) + "," + PrintNames(rest)
  }

  predicate GoodName(n: Name)
    decreases n
  {
    Word(n.word) && (n.Leaf? ==> n.word != []) && (n.Inst? ==> GoodNames(n.args))
  }

  predicate GoodNames(ns: Names)
    decreases ns
  {
    GoodName(ns.name) && (ns.More? ==> GoodNames(ns.rest))
  }

  lemma {:induction false} ScanCat(a: string, b: string, depth: nat, mid: nat)
    requires Scan(a, depth) == Some(mid)
    ensures Scan(a + b, depth) == Scan(b, mid)
    decreases |a|
  {
    if a == [] {
      assert a + b == b;
    } else {
      assert (a + b)[1..] == a[1..] + b;
      ScanCat(a[1..], b, if a[0] == '(' then depth + 1 else if a[0] == ')' then depth - 1 else depth, mid);
    }
  }

  lemma {:induction false} ScanWord(w: string, depth: nat)
    requires Word(w)
    ensures Scan(w, depth) == Some(depth)
    decreases |w|
  {
    if w != [] {
      ScanWord(w[1..], depth);
    }
  }

  lemma ScanOne(c: char, depth: nat)
    ensures Scan([c], depth)
         == if c == '(' then Some(depth + 1)
            else if c == ')' then if depth == 0 then None else Some(depth - 1)
            else Some(depth)
  {}

  lemma {:induction false} ScanName(n: Name, depth: nat)
    requires GoodName(n)
    ensures Scan(PrintName(n), depth) == Some(depth)
    decreases n
  {
    hide Scan; hide Word;
    ScanWord(n.word, depth);
    if n.Inst? {
      var inner := PrintNames(n.args);
      ScanOne('(', depth); ScanOne(')', depth + 1);
      ScanNames(n.args, depth + 1);
      ScanCat(n.word, "(", depth, depth);
      ScanCat(n.word + "(", inner, depth, depth + 1);
      ScanCat(n.word + "(" + inner, ")", depth, depth + 1);
    }
  }

  lemma {:induction false} ScanNames(ns: Names, depth: nat)
    requires GoodNames(ns)
    ensures Scan(PrintNames(ns), depth) == Some(depth)
    decreases ns
  {
    hide Scan;
    ScanName(ns.name, depth);
    if ns.More? {
      ScanOne(',', depth);
      ScanNames(ns.rest, depth);
      ScanCat(PrintName(ns.name), ",", depth, depth);
      ScanCat(PrintName(ns.name) + ",", PrintNames(ns.rest), depth, depth);
    }
  }

  /** A name is an argument that the round trip covers, however deep it is nested. */
  lemma NameIsArg(n: Name) returns (a: Arg)
    requires GoodName(n)
    ensures GoodArg(a) && PrintArg(a) == PrintName(n)
  {
    if n.Inst? {
      ScanNames(n.args, 0);
      a := Nested(n.word, PrintNames(n.args));
    } else {
      a := Plain(n.word);
    }
  }

  // The parser as the code runs it

  lemma WordAt(s: string, p: nat)
    requires p <= |s|
    ensures WordLen(s[p..]) == if p < |s| && WordChar(s[p]) then 1 + WordLen(s[p + 1..]) else 0
  {
    if p < |s| { assert s[p..][0] == s[p] && s[p..][1..] == s[p + 1..]; }
  }

  lemma DigitsAt(s: string, from: nat, p: nat)
    requires from <= p < |s|
    ensures Digits(s[from..p + 1]) == (Digits(s[from..p]) && Digit(s[p]))
  {
    var a, b := s[from..p], s[from..p + 1];
    assert b == a + [s[p]] && b[p - from] == s[p];
    assert forall i :: 0 <= i < |a| ==> a[i] == b[i];
  }

  /** The scan over a word, from position `from`; it also tells whether something is not a digit. */
  method SkipWord(s: string, from: nat) returns (p: nat, notnum: bool)
    requires from <= |s|
    ensures p == from + WordLen(s[from..]) && notnum == !Digits(s[from..p])
  {
    NoDigits(s, from);
    hide WordLen; hide Digits;
    p, notnum := from, false;
    while p < |s| && WordChar(s[p])
      invariant from <= p <= |s| && p + WordLen(s[p..]) == from + WordLen(s[from..]) && notnum == !Digits(s[from..p])
    {
      WordAt(s, p);
      DigitsAt(s, from, p);
      notnum := notnum || !Digit(s[p]);
      p := p + 1;
    }
    WordAt(s, p);
  }

  lemma NoDigits(s: string, from: nat)
    requires from <= |s|
    ensures Digits(s[from..from])
  {}

  /** The search for the closing parenthesis behind `from`; None at the end of the text. */
  method SkipNested(s: string, from: nat) returns (p: Option<nat>)
    requires from <= |s|
    ensures var n := CloseLen(s[from..], 0); p == if n == None then None else Some(from + n.value)
  {
    var i, recursion: nat := from, 0;
    assert s[|s|..] == [];
    while i < |s|
      invariant from <= i <= |s|
      invariant var n, m := CloseLen(s[i..], recursion), CloseLen(s[from..], 0);
        if m == None then n == None else n.Some? && i + n.value == from + m.value
    {
      assert s[i..][1..] == s[i + 1..] && s[i..][0] == s[i];
      if s[i] == '(' {
        recursion := recursion + 1;
      } else if s[i] == ')' {
        if recursion == 0 { return Some(i + 1); }
        recursion := recursion - 1;
      }
      i := i + 1;
    }
    return None;
  }

  function Prepend(attrs: seq<Attr>, r: Option<seq<Attr>>): Option<seq<Attr>> {
    if r == None then None else Some(attrs + r.value)
  }

  function Room(maxAttrs: nat, n: nat): nat { if n < maxAttrs then maxAttrs - n else 0 }

  /** The arguments of a text from a position on, by the position behind the first. */
  lemma ArgsAt(s: string, from: nat, room: nat, q: nat)
    requires from < q <= |s| && ArgLen(s[from..]) == Some(q - from)
    ensures ParseArgs(s[from..], room) ==
      if room <= 1 || q == |s| then None
      else if s[q] == ')' then Some([MakeAttr(s[from..q])])
      else if s[q] != ',' then None
      else Prepend([MakeAttr(s[from..q])], ParseArgs(s[q + 1..], room - 1))
  {
    hide ArgLen; hide MakeAttr;
    var t, n := s[from..], q - from;
    assert t[..n] == s[from..q];
    if q < |s| {
      assert t[n..] == s[q..] && t[n..][0] == s[q] && t[n..][1..] == s[q + 1..];
    }
  }

  lemma NoArg(s: string, room: nat)
    requires ArgLen(s) == None
    ensures ParseArgs(s, room) == None
  {}

  /** One argument from a position on: the position behind it, and its attribute. */
  method ParseArg(s: string, from: nat) returns (q: Option<nat>, attr: Attr)
    requires from <= |s|
    ensures q.Some? <==> ArgLen(s[from..]).Some?
    ensures q.Some? ==>
      && from < q.value <= |s| && ArgLen(s[from..]) == Some(q.value - from) && attr == MakeAttr(s[from..q.value])
  {
    hide WordLen; hide CloseLen; hide Digits;
    var p, notnum := SkipWord(s, from);
    attr := Alg([]);
    assert p < |s| ==> s[from..][p - from] == s[p] && s[from..][p - from + 1..] == s[p + 1..];
    if p < |s| && s[p] == '(' {
      var e := SkipNested(s, p + 1);
      if e == None { return None, attr; }
      notnum := true;
      NotDigits(s, from, p, e.value);
      p := e.value;
    }
    if p == from { return None, attr; }
    var text := s[from..p];
    return Some(p), if notnum then Alg(text) else Num(text);
  }

  lemma NotDigits(s: string, from: nat, p: nat, q: nat)
    requires from <= p < q <= |s| && s[p] == '('
    ensures !Digits(s[from..q])
  {
    assert s[from..q][p - from] == '(';
  }

  method ParseText(s: string, maxAttrs: nat) returns (r: Option<Parsed>)
    ensures r == Parse(s, maxAttrs)
  {
    hide ParseArgs; hide WordLen; hide ArgLen; hide MakeAttr; hide Digits;
    var p, _ := SkipWord(s, 0);
    assert s[0..] == s && s[0..p] == s[..p];
    if p == 0 || p == |s| || s[p] != '(' { return None; }
    var template, attrs, from := s[..p], [], p + 1;
    ghost var goal := ParseArgs(s[from..], maxAttrs);
    assert goal.Some? ==> [] + goal.value == goal.value;
    while true
      invariant p < from <= |s| && template == s[..p]
      invariant goal == Prepend(attrs, ParseArgs(s[from..], Room(maxAttrs, |attrs|)))
      decreases |s| - from
    {
      ghost var room, done := Room(maxAttrs, |attrs|), attrs;
      var q, attr := ParseArg(s, from);
      if q == None {
        NoArg(s[from..], room);
        return None;
      }
      ArgsAt(s, from, room, q.value);
      attrs := attrs + [attr];
      if |attrs| >= maxAttrs || q.value == |s| { return None; }
      if s[q.value] == ')' { return Some(Parsed(template, attrs)); }
      if s[q.value] != ',' { return None; }
      from := q.value + 1;
      PrependTwice(done, attr, ParseArgs(s[from..], room - 1));
    }
  }

  lemma PrependTwice(attrs: seq<Attr>, attr: Attr, r: Option<seq<Attr>>)
    ensures Prepend(attrs, Prepend([attr], r)) == Prepend(attrs + [attr], r)
  {
    if r.Some? { assert attrs + ([attr] + r.value) == attrs + [attr] + r.value; }
  }
}
