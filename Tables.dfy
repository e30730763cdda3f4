/** The constants and tables of the Bison-generated LALR(1) parser for Cool
    (PA3/cool-parse.cc:543-853).
    Each table is a total function over its index range; an entry's type records the range
    of values the table holds. The bodies are generated mechanically from the arrays: each
    is a binary search on its index that splits a range at its midpoint (`if p < mid`) and
    stops at a range whose entries are all equal, which becomes that value, or at a range of
    at most eight entries, which becomes a `match` listing each index but the last and
    giving the last entry as the default case. The verifier can then reason about an entry
    without considering every index. */
module ParserTables {

  /** The state in which the parser accepts (PA3/cool-parse.cc:544). */
  const YYFINAL := 8
  /** The last index of YyTable and YyCheck (PA3/cool-parse.cc:546). */
  const YYLAST := 354
  /** The number of terminals; nonterminal n has symbol number YYNTOKENS + n. */
  const YYNTOKENS := 45
  /** The number of nonterminals, $accept included. */
  const YYNNTS := 29
  /** The number of grammar rules; rules are numbered 1..YYNRULES, rule 1 being $accept. */
  const YYNRULES := 73
  /** The number of automaton states. */
  const YYNSTATES := 171
  /** The symbol that external token codes without a translation map to. */
  const YYUNDEFTOK := 2
  /** The largest external token code yytranslate covers. */
  const YYMAXUTOK := 284
  /** The yypact value of a state whose action never depends on the lookahead. */
  const YYPACT_NINF := -125
  /** The yytable value that means a syntax error. */
  const YYTABLE_NINF := -11
  /** The internal symbol number of the `error` token. */
  const YYTERROR := 1
  /** The external token code of the `error` token. */
  const YYERRCODE := 256
  /** The lookahead slot's value when no token has been read. */
  const YYEMPTY := -2
  /** The token code of end of input. */
  const YYEOF := 0
  /** The size of the three stacks yyparse declares (PA3/cool-parse.cc:1090-1092, 1384-1394). */
  const YYINITDEPTH := 200
  /** The size the stacks may be grown to when they can be relocated (PA3/cool-parse.cc:1101-1103). */
  const YYMAXDEPTH := 10000

  type StateNum = s: int | 0 <= s < YYNSTATES
  type TokenNum = t: int | 0 <= t < YYNTOKENS
  type SymbolNum = x: int | 0 <= x < YYNTOKENS + YYNNTS
  type RuleNum = r: int | 0 <= r <= YYNRULES
  /** The longest right-hand side in the grammar has 10 symbols (rule 16, a method). */
  type RhsLength = n: int | 0 <= n <= 10
  type TableBase = x: int | YYPACT_NINF <= x <= YYLAST
  type TableEntry = x: int | YYTABLE_NINF <= x < YYNSTATES
  type CheckEntry = x: int | -1 <= x < YYNSTATES
  type GotoEntry = x: int | -1 <= x < YYNSTATES

  /** yytranslate (PA3/cool-parse.cc:567-598): the internal symbol number of each external
      token code 0..YYMAXUTOK. End of input stays 0, the `error` code becomes the `error`
      symbol, the declared tokens 258..283 follow it in order, and the codes
      128..255, 257 and 284, which no token uses, are undefined. */
  function YyTranslate(code: int): (t: TokenNum)
    requires 0 <= code <= YYMAXUTOK
    ensures code == YYEOF ==> t == YYEOF
    ensures code == YYERRCODE ==> t == YYTERROR
    ensures 258 <= code <= 283 ==> t == code - 255
    ensures 128 <= code < YYERRCODE || code == 257 || code == YYMAXUTOK ==> t == YYUNDEFTOK
  {
    (if code < 142 then
      (if code < 71 then
        (if code < 35 then
          (if code < 17 then
            (if code < 8 then
              (match code case 0 => 0 case 1 => 2 case 2 => 2 case 3 => 2 case 4 => 2 case 5 => 2 case 6 => 2 case _ => 2)
            else
              2)
          else
            2)
        else
          (if code < 53 then
            (if code < 44 then
              (if code < 39 then
                2
              else
                (match code case 39 => 2 case 40 => 42 case 41 => 43 case 42 => 33 case _ => 31))
            else
              (if code < 48 then
                (match code case 44 => 44 case 45 => 32 case 46 => 37 case _ => 34)
              else
                2))
          else
            (if code < 62 then
              (if code < 57 then
                2
              else
                (match code case 57 => 2 case 58 => 41 case 59 => 38 case 60 => 29 case _ => 30))
            else
              (if code < 66 then
                (match code case 62 => 2 case 63 => 2 case 64 => 36 case _ => 2)
              else
                2))))
      else
        (if code < 106 then
          2
        else
          (if code < 124 then
            (if code < 115 then
              2
            else
              (if code < 119 then
                2
              else
                (match code case 119 => 2 case 120 => 2 case 121 => 2 case 122 => 2 case _ => 39)))
          else
            (if code < 133 then
              (if code < 128 then
                (match code case 124 => 2 case 125 => 40 case 126 => 35 case _ => 2)
              else
                2)
            else
              2))))
    else
      (if code < 213 then
        2
      else
        (if code < 249 then
          2
        else
          (if code < 267 then
            (if code < 258 then
              (if code < 253 then
                2
              else
                (match code case 253 => 2 case 254 => 2 case 255 => 2 case 256 => 1 case _ => 2))
            else
              (if code < 262 then
                (match code case 258 => 3 case 259 => 4 case 260 => 5 case _ => 6)
              else
                (match code case 262 => 7 case 263 => 8 case 264 => 9 case 265 => 10 case _ => 11)))
          else
            (if code < 276 then
              (if code < 271 then
                (match code case 267 => 12 case 268 => 13 case 269 => 14 case _ => 15)
              else
                (match code case 271 => 16 case 272 => 17 case 273 => 18 case 274 => 19 case _ => 20))
            else
              (if code < 280 then
                (match code case 276 => 21 case 277 => 22 case 278 => 23 case _ => 24)
              else
                (match code case 280 => 25 case 281 => 26 case 282 => 27 case 283 => 28 case _ => 2)))))))
  }

  /** yypact (PA3/cool-parse.cc:659-679): the base index into YyTable of the portion
      describing a state, or YYPACT_NINF when the state has only a default action. */
  function YyPact(state: StateNum): TableBase
  {
    (if state < 85 then
      (if state < 42 then
        (if state < 21 then
          (if state < 10 then
            (if state < 5 then
              (match state case 0 => 13 case 1 => -23 case 2 => 21 case 3 => 23 case _ => 46)
            else
              (match state case 5 => -125 case 6 => -125 case 7 => 0 case 8 => -125 case _ => -125))
          else
            (if state < 15 then
              (match state case 10 => 28 case 11 => 1 case 12 => 39 case 13 => 42 case _ => 33)
            else
              (match state case 15 => -2 case 16 => -125 case 17 => -125 case 18 => -125 case 19 => 1 case _ => -125)))
        else
          (if state < 31 then
            (if state < 26 then
              (match state case 21 => 65 case 22 => -19 case 23 => 52 case 24 => -125 case _ => 26)
            else
              (match state case 26 => 48 case 27 => 53 case 28 => 73 case 29 => 2 case _ => -125))
          else
            (if state < 36 then
              (match state case 31 => -125 case 32 => 66 case 33 => 129 case 34 => -125 case _ => 74)
            else
              (match state case 36 => 99 case 37 => 79 case 38 => 104 case 39 => -125 case 40 => 129 case _ => 3))))
      else
        (if state < 63 then
          (if state < 52 then
            (if state < 47 then
              (match state case 42 => 129 case 43 => 129 case 44 => 107 case 45 => 129 case _ => -125)
            else
              (match state case 47 => -125 case 48 => -125 case 49 => 12 case 50 => 129 case _ => 129))
          else
            (if state < 57 then
              (match state case 52 => 63 case 53 => 129 case 54 => 258 case 55 => -125 case _ => -125)
            else
              -125))
        else
          (if state < 74 then
            (if state < 68 then
              -125
            else
              (match state case 68 => -125 case 69 => 94 case 70 => 111 case 71 => -125 case 72 => 196 case _ => 4))
          else
            (if state < 79 then
              (match state case 74 => 100 case 75 => -125 case 76 => 173 case 77 => 208 case _ => -125)
            else
              (match state case 79 => 76 case 80 => 129 case 81 => 129 case 82 => 306 case 83 => 76 case _ => 102)))))
    else
      (if state < 128 then
        (if state < 106 then
          (if state < 95 then
            (if state < 90 then
              (match state case 85 => 97 case 86 => 270 case 87 => 219 case 88 => 129 case _ => 129)
            else
              129)
          else
            (if state < 100 then
              (match state case 95 => 121 case 96 => 122 case 97 => -125 case 98 => 129 case _ => 106)
            else
              (match state case 100 => 129 case 101 => 129 case 102 => 3 case 103 => 131 case 104 => 129 case _ => 132)))
        else
          (if state < 117 then
            (if state < 111 then
              (match state case 106 => 306 case 107 => 56 case 108 => 306 case 109 => -125 case _ => -125)
            else
              (match state case 111 => 282 case 112 => -125 case 113 => -125 case 114 => 317 case 115 => 317 case _ => 317))
          else
            (if state < 122 then
              (match state case 117 => 59 case 118 => 59 case 119 => 76 case 120 => 76 case _ => 120)
            else
              (match state case 122 => 116 case 123 => 234 case 124 => 129 case 125 => 148 case 126 => 306 case _ => -125))))
      else
        (if state < 149 then
          (if state < 138 then
            (if state < 133 then
              (match state case 128 => -4 case 129 => 184 case 130 => 118 case 131 => 55 case _ => -125)
            else
              (match state case 133 => -125 case 134 => 129 case 135 => -125 case 136 => 136 case _ => 129))
          else
            (if state < 143 then
              (match state case 138 => 123 case 139 => 246 case 140 => 129 case 141 => 129 case _ => 129)
            else
              (match state case 143 => 3 case 144 => -125 case 145 => 139 case 146 => -125 case 147 => -125 case _ => 306)))
        else
          (if state < 160 then
            (if state < 154 then
              (match state case 149 => 124 case 150 => 81 case 151 => -125 case 152 => 125 case _ => 160)
            else
              (match state case 154 => 306 case 155 => -1 case 156 => -125 case 157 => 150 case 158 => 129 case _ => -125))
          else
            (if state < 165 then
              (match state case 160 => -125 case 161 => -125 case 162 => 129 case 163 => 3 case _ => 129)
            else
              (match state case 165 => 83 case 166 => 306 case 167 => -125 case 168 => 294 case 169 => -125 case _ => -125))))))
  }

  /** yydefact (PA3/cool-parse.cc:684-704): the default reduction of a state; 0 means that
      the default is a syntax error. */
  function YyDefact(state: StateNum): RuleNum
  {
    (if state < 85 then
      (if state < 42 then
        (if state < 21 then
          (if state < 10 then
            (if state < 5 then
              (match state case 0 => 0 case 1 => 0 case 2 => 0 case 3 => 0 case _ => 2)
            else
              (match state case 5 => 3 case 6 => 5 case 7 => 0 case 8 => 1 case _ => 4))
          else
            (if state < 15 then
              0
            else
              (match state case 15 => 0 case 16 => 8 case 17 => 12 case 18 => 13 case 19 => 0 case _ => 11)))
        else
          (if state < 31 then
            (if state < 26 then
              (match state case 21 => 0 case 22 => 0 case 23 => 0 case 24 => 9 case _ => 0)
            else
              (match state case 26 => 0 case 27 => 0 case 28 => 0 case 29 => 0 case _ => 18))
          else
            (if state < 36 then
              (match state case 31 => 6 case 32 => 0 case 33 => 0 case 34 => 14 case _ => 0)
            else
              (match state case 36 => 0 case 37 => 0 case 38 => 0 case 39 => 7 case 40 => 0 case _ => 0))))
      else
        (if state < 63 then
          (if state < 52 then
            (if state < 47 then
              (match state case 42 => 0 case 43 => 0 case 44 => 0 case 45 => 0 case _ => 42)
            else
              (match state case 47 => 43 case 48 => 41 case 49 => 44 case 50 => 0 case _ => 0))
          else
            (if state < 57 then
              (match state case 52 => 0 case 53 => 0 case 54 => 0 case 55 => 28 case _ => 29)
            else
              (match state case 57 => 30 case 58 => 31 case 59 => 32 case 60 => 33 case 61 => 34 case _ => 35)))
        else
          (if state < 74 then
            (if state < 68 then
              (match state case 63 => 36 case 64 => 37 case 65 => 38 case 66 => 39 case _ => 40)
            else
              (match state case 68 => 20 case 69 => 0 case 70 => 0 case 71 => 19 case 72 => 0 case _ => 0))
          else
            (if state < 79 then
              (match state case 74 => 0 case 75 => 52 case 76 => 0 case 77 => 0 case _ => 63)
            else
              (match state case 79 => 64 case 80 => 0 case 81 => 26 case 82 => 68 case 83 => 69 case _ => 0)))))
    else
      (if state < 128 then
        (if state < 106 then
          (if state < 95 then
            0
          else
            (if state < 100 then
              (match state case 95 => 0 case 96 => 0 case 97 => 15 case 98 => 0 case _ => 0)
            else
              0))
        else
          (if state < 117 then
            (if state < 111 then
              (match state case 106 => 45 case 107 => 0 case 108 => 24 case 109 => 23 case _ => 51)
            else
              (match state case 111 => 0 case 112 => 21 case 113 => 27 case 114 => 67 case 115 => 66 case _ => 65))
          else
            (if state < 122 then
              (match state case 117 => 70 case 118 => 71 case 119 => 72 case 120 => 73 case _ => 0)
            else
              (match state case 122 => 0 case 123 => 0 case 124 => 0 case 125 => 0 case 126 => 55 case _ => 58))))
      else
        (if state < 149 then
          (if state < 138 then
            (if state < 133 then
              (match state case 128 => 0 case 129 => 0 case 130 => 0 case 131 => 0 case _ => 60)
            else
              (match state case 133 => 47 case 134 => 0 case 135 => 22 case 136 => 0 case _ => 26))
          else
            (if state < 143 then
              0
            else
              (match state case 143 => 0 case 144 => 50 case 145 => 0 case 146 => 59 case 147 => 61 case _ => 25)))
        else
          (if state < 160 then
            (if state < 154 then
              (match state case 149 => 0 case 150 => 0 case 151 => 17 case 152 => 0 case _ => 0)
            else
              (match state case 154 => 53 case 155 => 0 case 156 => 56 case 157 => 0 case 158 => 26 case _ => 46))
          else
            (if state < 165 then
              (match state case 160 => 16 case 161 => 49 case 162 => 0 case 163 => 0 case _ => 0)
            else
              (match state case 165 => 0 case 166 => 54 case 167 => 57 case 168 => 0 case 169 => 48 case _ => 62))))))
  }

  /** yypgoto (PA3/cool-parse.cc:707-712): the base index into YyTable of the goto part of
      nonterminal YYNTOKENS + nt. */
  function YyPgoto(nt: int): TableBase
    requires 0 <= nt < YYNNTS
  {
    (if nt < 14 then
      (if nt < 7 then
        (match nt case 0 => -125 case 1 => -125 case 2 => -125 case 3 => 165 case 4 => 151 case 5 => 38 case _ => -125)
      else
        (match nt case 7 => -125 case 8 => -125 case 9 => 134 case 10 => -125 case 11 => -124 case 12 => -33 case _ => -125))
    else
      (if nt < 21 then
        -125
      else
        (match nt case 21 => -101 case 22 => -125 case 23 => -125 case 24 => 43 case 25 => -125 case 26 => -125 case 27 => -125 case _ => -125)))
  }

  /** yydefgoto (PA3/cool-parse.cc:715-720): the default goto state of nonterminal
      YYNTOKENS + nt. */
  function YyDefgoto(nt: int): GotoEntry
    requires 0 <= nt < YYNNTS
  {
    (if nt < 14 then
      (if nt < 7 then
        (match nt case 0 => -1 case 1 => 3 case 2 => 4 case 3 => 5 case 4 => 15 case 5 => 16 case _ => 17)
      else
        (match nt case 7 => 18 case 8 => 29 case 9 => 30 case 10 => 85 case 11 => 107 case 12 => 108 case _ => 55))
    else
      (if nt < 21 then
        (match nt case 14 => 56 case 15 => 57 case 16 => 58 case 17 => 59 case 18 => 60 case 19 => 61 case _ => 62)
      else
        (match nt case 21 => 75 case 22 => 63 case 23 => 131 case 24 => 132 case 25 => 64 case 26 => 65 case 27 => 66 case _ => 67)))
  }

  /** yytable (PA3/cool-parse.cc:725-763): the packed action and goto table. A positive entry
      is a state to shift to or go to, a negative one the opposite of a rule to reduce by,
      YYTABLE_NINF a syntax error. */
  function YyTable(i: int): TableEntry
    requires 0 <= i <= YYLAST
  {
    (if i < 177 then
      (if i < 88 then
        (if i < 44 then
          (if i < 22 then
            (if i < 11 then
              (if i < 5 then
                (match i case 0 => 54 case 1 => 127 case 2 => 13 case 3 => 141 case _ => 73)
              else
                (match i case 5 => 27 case 6 => 162 case 7 => 72 case 8 => 10 case 9 => 76 case _ => 77))
            else
              (if i < 16 then
                (match i case 11 => 101 case 12 => 79 case 13 => 150 case 14 => 1 case _ => 6)
              else
                (match i case 16 => 2 case 17 => 82 case 18 => 83 case 19 => 86 case 20 => 87 case _ => 142)))
          else
            (if i < 33 then
              (if i < 27 then
                (match i case 22 => 14 case 23 => 8 case 24 => 28 case 25 => 14 case _ => 88)
              else
                (match i case 27 => 74 case 28 => 89 case 29 => 90 case 30 => 91 case 31 => 92 case _ => 93))
            else
              (if i < 38 then
                (match i case 33 => 94 case 34 => 165 case 35 => 95 case 36 => 96 case _ => 80)
              else
                (match i case 38 => 23 case 39 => 11 case 40 => 143 case 41 => -10 case 42 => 156 case _ => 163))))
        else
          (if i < 66 then
            (if i < 55 then
              (if i < 49 then
                (match i case 44 => 7 case 45 => 37 case 46 => 38 case 47 => 106 case _ => 102)
              else
                (match i case 49 => 2 case 50 => 14 case 51 => 12 case 52 => 111 case 53 => 24 case _ => 81))
            else
              (if i < 60 then
                (match i case 55 => 114 case 56 => 115 case 57 => 116 case 58 => 117 case _ => 118)
              else
                (match i case 60 => 119 case 61 => 120 case 62 => 167 case 63 => 24 case 64 => 84 case _ => 123)))
          else
            (if i < 77 then
              (if i < 71 then
                (match i case 66 => 32 case 67 => 125 case 68 => 126 case 69 => 40 case _ => 146)
              else
                (match i case 71 => 129 case 72 => 41 case 73 => 33 case 74 => 21 case 75 => 22 case _ => 42))
            else
              (if i < 82 then
                (match i case 77 => 43 case 78 => 19 case 79 => 130 case 80 => 20 case _ => 44)
              else
                (match i case 82 => 45 case 83 => 46 case 84 => 47 case 85 => 48 case 86 => 34 case _ => 49)))))
      else
        (if i < 132 then
          (if i < 110 then
            (if i < 99 then
              (if i < 93 then
                (match i case 88 => 26 case 89 => 50 case 90 => 31 case 91 => 139 case _ => 93)
              else
                (match i case 93 => 94 case 94 => 35 case 95 => 95 case 96 => 96 case 97 => 68 case _ => 51))
            else
              (if i < 104 then
                (match i case 99 => 133 case 100 => 134 case 101 => 148 case 102 => 52 case _ => 40)
              else
                (match i case 104 => 39 case 105 => 53 case 106 => 41 case 107 => 153 case 108 => 154 case _ => 155)))
          else
            (if i < 121 then
              (if i < 115 then
                (match i case 110 => 42 case 111 => 43 case 112 => 95 case 113 => 96 case _ => 36)
              else
                (match i case 115 => 44 case 116 => 45 case 117 => 46 case 118 => 47 case 119 => 48 case _ => 70))
            else
              (if i < 126 then
                (match i case 121 => 49 case 122 => 69 case 123 => 50 case 124 => 159 case _ => 134)
              else
                (match i case 126 => 169 case 127 => 134 case 128 => 27 case 129 => 166 case 130 => 78 case _ => 168))))
        else
          (if i < 154 then
            (if i < 143 then
              (if i < 137 then
                (match i case 132 => 51 case 133 => 98 case 134 => 99 case 135 => 40 case _ => 52)
              else
                (match i case 137 => 110 case 138 => 41 case 139 => 53 case 140 => 109 case 141 => 103 case _ => 42))
            else
              (if i < 148 then
                (match i case 143 => 43 case 144 => 121 case 145 => 124 case 146 => 122 case _ => 44)
              else
                (match i case 148 => 45 case 149 => 46 case 150 => 47 case 151 => 48 case 152 => 140 case _ => 49)))
          else
            (if i < 165 then
              (if i < 159 then
                (match i case 154 => 128 case 155 => 50 case 156 => 130 case 157 => 136 case _ => 137)
              else
                (match i case 159 => 145 case 160 => 149 case 161 => 151 case 162 => 157 case 163 => 160 case _ => 51))
            else
              (if i < 171 then
                (match i case 165 => 161 case 166 => 158 case 167 => 164 case 168 => 52 case 169 => 9 case _ => 25)
              else
                (match i case 171 => 53 case 172 => 71 case 173 => 0 case 174 => 147 case 175 => 88 case _ => 0))))))
    else
      (if i < 266 then
        (if i < 221 then
          (if i < 199 then
            (if i < 188 then
              (if i < 182 then
                (match i case 177 => 89 case 178 => 90 case 179 => 91 case 180 => 92 case _ => 93)
              else
                (match i case 182 => 94 case 183 => 104 case 184 => 95 case 185 => 96 case 186 => 0 case _ => 88))
            else
              (if i < 193 then
                (match i case 188 => 0 case 189 => 89 case 190 => 90 case 191 => 91 case _ => 92)
              else
                (match i case 193 => 93 case 194 => 94 case 195 => 144 case 196 => 95 case 197 => 96 case _ => 0)))
          else
            (if i < 210 then
              (if i < 204 then
                (match i case 199 => 0 case 200 => 88 case 201 => 0 case 202 => 89 case _ => 90)
              else
                (match i case 204 => 91 case 205 => 92 case 206 => 93 case 207 => 94 case 208 => 100 case _ => 95))
            else
              (if i < 215 then
                (match i case 210 => 96 case 211 => 88 case 212 => 0 case 213 => 89 case _ => 90)
              else
                (match i case 215 => 91 case 216 => 92 case 217 => 93 case 218 => 94 case 219 => 0 case _ => 95))))
        else
          (if i < 243 then
            (if i < 232 then
              (if i < 226 then
                (match i case 221 => 96 case 222 => 0 case 223 => 88 case 224 => 105 case _ => 89)
              else
                (match i case 226 => 90 case 227 => 91 case 228 => 92 case 229 => 93 case 230 => 94 case _ => 0))
            else
              (if i < 237 then
                (match i case 232 => 95 case 233 => 96 case 234 => 0 case 235 => 88 case _ => 0)
              else
                (match i case 237 => 89 case 238 => 90 case 239 => 91 case 240 => 92 case 241 => 93 case _ => 94)))
          else
            (if i < 254 then
              (if i < 248 then
                (match i case 243 => 0 case 244 => 95 case 245 => 96 case 246 => 88 case _ => 0)
              else
                (match i case 248 => 89 case 249 => 90 case 250 => 91 case 251 => 92 case 252 => 93 case _ => 94))
            else
              (if i < 260 then
                (match i case 254 => 0 case 255 => 95 case 256 => 96 case 257 => 0 case 258 => 0 case _ => 0)
              else
                (match i case 260 => 0 case 261 => 88 case 262 => 113 case 263 => 89 case 264 => 90 case _ => 91)))))
      else
        (if i < 310 then
          (if i < 288 then
            (if i < 277 then
              (if i < 271 then
                (match i case 266 => 92 case 267 => 93 case 268 => 94 case 269 => 0 case _ => 95)
              else
                (match i case 271 => 96 case 272 => 0 case 273 => 88 case 274 => 138 case 275 => 89 case _ => 90))
            else
              (if i < 282 then
                (match i case 277 => 91 case 278 => 92 case 279 => 93 case 280 => 94 case _ => 0)
              else
                (match i case 282 => 95 case 283 => 96 case 284 => 0 case 285 => 88 case 286 => 152 case _ => 89)))
          else
            (if i < 299 then
              (if i < 293 then
                (match i case 288 => 90 case 289 => 91 case 290 => 92 case 291 => 93 case _ => 94)
              else
                (match i case 293 => 0 case 294 => 95 case 295 => 96 case 296 => 97 case 297 => 88 case _ => 0))
            else
              (if i < 304 then
                (match i case 299 => 89 case 300 => 90 case 301 => 91 case 302 => 92 case _ => 93)
              else
                (match i case 304 => 94 case 305 => 0 case 306 => 95 case 307 => 96 case 308 => 112 case _ => 88))))
        else
          (if i < 332 then
            (if i < 321 then
              (if i < 315 then
                (match i case 310 => 0 case 311 => 89 case 312 => 90 case 313 => 91 case _ => 92)
              else
                (match i case 315 => 93 case 316 => 94 case 317 => 0 case 318 => 95 case 319 => 96 case _ => 135))
            else
              (if i < 326 then
                (match i case 321 => 88 case 322 => 0 case 323 => 89 case 324 => 90 case _ => 91)
              else
                (match i case 326 => 92 case 327 => 93 case 328 => 94 case 329 => 0 case 330 => 95 case _ => 96)))
          else
            (if i < 343 then
              (if i < 337 then
                (match i case 332 => 170 case 333 => 88 case 334 => 0 case 335 => 89 case _ => 90)
              else
                (match i case 337 => 91 case 338 => 92 case 339 => 93 case 340 => 94 case 341 => 0 case _ => 95))
            else
              (if i < 349 then
                (match i case 343 => 96 case 344 => -11 case 345 => 0 case 346 => -11 case 347 => -11 case _ => 91)
              else
                (match i case 349 => 92 case 350 => 93 case 351 => 94 case 352 => 0 case 353 => 95 case _ => 96)))))))
  }

  /** yycheck (PA3/cool-parse.cc:765-803): the guard of YyTable, holding the symbol (action
      part) or the state (goto part) an entry belongs to, and -1 in unused slots. */
  function YyCheck(i: int): CheckEntry
    requires 0 <= i <= YYLAST
  {
    (if i < 177 then
      (if i < 88 then
        (if i < 44 then
          (if i < 22 then
            (if i < 11 then
              (if i < 5 then
                (match i case 0 => 33 case 1 => 102 case 2 => 1 case 3 => 7 case _ => 1)
              else
                (match i case 5 => 24 case 6 => 7 case 7 => 40 case 8 => 8 case 9 => 42 case _ => 43))
            else
              (if i < 16 then
                (match i case 11 => 7 case 12 => 45 case 13 => 137 case 14 => 1 case _ => 38)
              else
                (match i case 16 => 3 case 17 => 50 case 18 => 51 case 19 => 52 case 20 => 53 case _ => 25)))
          else
            (if i < 33 then
              (if i < 27 then
                (match i case 22 => 24 case 23 => 0 case 24 => 43 case 25 => 24 case _ => 27)
              else
                (match i case 27 => 24 case 28 => 29 case 29 => 30 case 30 => 31 case 31 => 32 case _ => 33))
            else
              (if i < 38 then
                (match i case 33 => 34 case 34 => 158 case 35 => 36 case 36 => 37 case _ => 25)
              else
                (match i case 38 => 40 case 39 => 39 case 40 => 44 case 41 => 40 case 42 => 143 case _ => 44))))
        else
          (if i < 66 then
            (if i < 55 then
              (if i < 49 then
                (match i case 44 => 23 case 45 => 43 case 46 => 44 case 47 => 80 case _ => 44)
              else
                (match i case 49 => 3 case 50 => 24 case 51 => 23 case 52 => 85 case 53 => 15 case _ => 42))
            else
              (if i < 60 then
                (match i case 55 => 88 case 56 => 89 case 57 => 90 case 58 => 91 case _ => 92)
              else
                (match i case 60 => 93 case 61 => 94 case 62 => 163 case 63 => 25 case 64 => 1 case _ => 98)))
          else
            (if i < 77 then
              (if i < 71 then
                (match i case 66 => 40 case 67 => 100 case 68 => 101 case 69 => 6 case _ => 15)
              else
                (match i case 71 => 104 case 72 => 9 case 73 => 25 case 74 => 41 case 75 => 42 case _ => 13))
            else
              (if i < 82 then
                (match i case 77 => 14 case 78 => 39 case 79 => 24 case 80 => 38 case _ => 18)
              else
                (match i case 82 => 19 case 83 => 20 case 84 => 21 case 85 => 22 case 86 => 38 case _ => 24)))))
      else
        (if i < 132 then
          (if i < 110 then
            (if i < 99 then
              (if i < 93 then
                (match i case 88 => 23 case 89 => 26 case 90 => 38 case 91 => 124 case _ => 33)
              else
                (match i case 93 => 34 case 94 => 41 case 95 => 36 case 96 => 37 case 97 => 23 case _ => 35))
            else
              (if i < 104 then
                (match i case 99 => 43 case 100 => 44 case 101 => 134 case 102 => 39 case _ => 6)
              else
                (match i case 104 => 38 case 105 => 42 case 106 => 9 case 107 => 140 case 108 => 141 case _ => 142)))
          else
            (if i < 121 then
              (if i < 115 then
                (match i case 110 => 13 case 111 => 14 case 112 => 36 case 113 => 37 case _ => 41)
              else
                (match i case 115 => 18 case 116 => 19 case 117 => 20 case 118 => 21 case 119 => 22 case _ => 41))
            else
              (if i < 126 then
                (match i case 121 => 24 case 122 => 23 case 123 => 26 case 124 => 43 case _ => 44)
              else
                (match i case 126 => 43 case 127 => 44 case 128 => 24 case 129 => 162 case 130 => 23 case _ => 164))))
        else
          (if i < 154 then
            (if i < 143 then
              (if i < 137 then
                (match i case 132 => 35 case 133 => 39 case 134 => 23 case 135 => 6 case _ => 39)
              else
                (match i case 137 => 40 case 138 => 9 case 139 => 42 case 140 => 38 case 141 => 41 case _ => 13))
            else
              (if i < 148 then
                (match i case 143 => 14 case 144 => 23 case 145 => 39 case 146 => 24 case _ => 18)
              else
                (match i case 148 => 19 case 149 => 20 case 150 => 21 case 151 => 22 case 152 => 4 case _ => 24)))
          else
            (if i < 165 then
              (if i < 159 then
                (match i case 154 => 23 case 155 => 26 case 156 => 24 case 157 => 37 case _ => 42)
              else
                (match i case 159 => 41 case 160 => 24 case 161 => 38 case 162 => 23 case 163 => 38 case _ => 35))
            else
              (if i < 171 then
                (match i case 165 => 5 case 166 => 42 case 167 => 17 case 168 => 39 case 169 => 4 case _ => 19)
              else
                (match i case 171 => 42 case 172 => 38 case 173 => -1 case 174 => 131 case 175 => 27 case _ => -1))))))
    else
      (if i < 266 then
        (if i < 221 then
          (if i < 199 then
            (if i < 188 then
              (if i < 182 then
                (match i case 177 => 29 case 178 => 30 case 179 => 31 case 180 => 32 case _ => 33)
              else
                (match i case 182 => 34 case 183 => 10 case 184 => 36 case 185 => 37 case 186 => -1 case _ => 27))
            else
              (if i < 193 then
                (match i case 188 => -1 case 189 => 29 case 190 => 30 case 191 => 31 case _ => 32)
              else
                (match i case 193 => 33 case 194 => 34 case 195 => 11 case 196 => 36 case 197 => 37 case _ => -1)))
          else
            (if i < 210 then
              (if i < 204 then
                (match i case 199 => -1 case 200 => 27 case 201 => -1 case 202 => 29 case _ => 30)
              else
                (match i case 204 => 31 case 205 => 32 case 206 => 33 case 207 => 34 case 208 => 12 case _ => 36))
            else
              (if i < 215 then
                (match i case 210 => 37 case 211 => 27 case 212 => -1 case 213 => 29 case _ => 30)
              else
                (match i case 215 => 31 case 216 => 32 case 217 => 33 case 218 => 34 case 219 => -1 case _ => 36))))
        else
          (if i < 243 then
            (if i < 232 then
              (if i < 226 then
                (match i case 221 => 37 case 222 => -1 case 223 => 27 case 224 => 16 case _ => 29)
              else
                (match i case 226 => 30 case 227 => 31 case 228 => 32 case 229 => 33 case 230 => 34 case _ => -1))
            else
              (if i < 237 then
                (match i case 232 => 36 case 233 => 37 case 234 => -1 case 235 => 27 case _ => -1)
              else
                (match i case 237 => 29 case 238 => 30 case 239 => 31 case 240 => 32 case 241 => 33 case _ => 34)))
          else
            (if i < 254 then
              (if i < 248 then
                (match i case 243 => -1 case 244 => 36 case 245 => 37 case 246 => 27 case _ => -1)
              else
                (match i case 248 => 29 case 249 => 30 case 250 => 31 case 251 => 32 case 252 => 33 case _ => 34))
            else
              (if i < 260 then
                (match i case 254 => -1 case 255 => 36 case 256 => 37 case 257 => -1 case 258 => -1 case _ => -1)
              else
                (match i case 260 => -1 case 261 => 27 case 262 => 43 case 263 => 29 case 264 => 30 case _ => 31)))))
      else
        (if i < 310 then
          (if i < 288 then
            (if i < 277 then
              (if i < 271 then
                (match i case 266 => 32 case 267 => 33 case 268 => 34 case 269 => -1 case _ => 36)
              else
                (match i case 271 => 37 case 272 => -1 case 273 => 27 case 274 => 40 case 275 => 29 case _ => 30))
            else
              (if i < 282 then
                (match i case 277 => 31 case 278 => 32 case 279 => 33 case 280 => 34 case _ => -1)
              else
                (match i case 282 => 36 case 283 => 37 case 284 => -1 case 285 => 27 case 286 => 40 case _ => 29)))
          else
            (if i < 299 then
              (if i < 293 then
                (match i case 288 => 30 case 289 => 31 case 290 => 32 case 291 => 33 case _ => 34)
              else
                (match i case 293 => -1 case 294 => 36 case 295 => 37 case 296 => 38 case 297 => 27 case _ => -1))
            else
              (if i < 304 then
                (match i case 299 => 29 case 300 => 30 case 301 => 31 case 302 => 32 case _ => 33)
              else
                (match i case 304 => 34 case 305 => -1 case 306 => 36 case 307 => 37 case 308 => 38 case _ => 27))))
        else
          (if i < 332 then
            (if i < 321 then
              (if i < 315 then
                (match i case 310 => -1 case 311 => 29 case 312 => 30 case 313 => 31 case _ => 32)
              else
                (match i case 315 => 33 case 316 => 34 case 317 => -1 case 318 => 36 case 319 => 37 case _ => 38))
            else
              (if i < 326 then
                (match i case 321 => 27 case 322 => -1 case 323 => 29 case 324 => 30 case _ => 31)
              else
                (match i case 326 => 32 case 327 => 33 case 328 => 34 case 329 => -1 case 330 => 36 case _ => 37)))
          else
            (if i < 343 then
              (if i < 337 then
                (match i case 332 => 38 case 333 => 27 case 334 => -1 case 335 => 29 case _ => 30)
              else
                (match i case 337 => 31 case 338 => 32 case 339 => 33 case 340 => 34 case 341 => -1 case _ => 36))
            else
              (if i < 349 then
                (match i case 343 => 37 case 344 => 27 case 345 => -1 case 346 => 29 case 347 => 30 case _ => 31)
              else
                (match i case 349 => 32 case 350 => 33 case 351 => 34 case 352 => -1 case 353 => 36 case _ => 37)))))))
  }

  /** yyr1 (PA3/cool-parse.cc:830-840): the symbol number of the left-hand side of a rule. */
  function YyR1(rule: RuleNum): SymbolNum
  {
    (if rule < 37 then
      (if rule < 18 then
        (if rule < 9 then
          (if rule < 4 then
            (match rule case 0 => 0 case 1 => 45 case 2 => 46 case _ => 47)
          else
            (match rule case 4 => 47 case 5 => 47 case 6 => 48 case 7 => 48 case _ => 49))
        else
          (if rule < 13 then
            (match rule case 9 => 49 case 10 => 49 case 11 => 49 case _ => 50)
          else
            (match rule case 13 => 50 case 14 => 51 case 15 => 51 case 16 => 52 case _ => 52)))
      else
        (if rule < 27 then
          (if rule < 22 then
            (match rule case 18 => 53 case 19 => 53 case 20 => 54 case _ => 55)
          else
            (match rule case 22 => 55 case 23 => 55 case 24 => 56 case 25 => 56 case _ => 56))
        else
          57))
    else
      (if rule < 55 then
        (if rule < 46 then
          (if rule < 41 then
            57
          else
            (match rule case 41 => 58 case 42 => 58 case 43 => 58 case 44 => 59 case _ => 60))
        else
          (if rule < 50 then
            (match rule case 46 => 61 case 47 => 61 case 48 => 61 case _ => 62)
          else
            (match rule case 50 => 63 case 51 => 64 case 52 => 65 case 53 => 66 case _ => 66)))
      else
        (if rule < 64 then
          (if rule < 59 then
            66
          else
            (match rule case 59 => 67 case 60 => 68 case 61 => 68 case 62 => 69 case _ => 70))
        else
          (if rule < 69 then
            (match rule case 64 => 71 case 65 => 72 case 66 => 72 case 67 => 72 case _ => 73)
          else
            73))))
  }

  /** yyr2 (PA3/cool-parse.cc:843-853): the number of symbols on the right-hand side of a
      rule. */
  function YyR2(rule: RuleNum): RhsLength
  {
    (if rule < 37 then
      (if rule < 18 then
        (if rule < 9 then
          (if rule < 4 then
            (match rule case 0 => 0 case 1 => 2 case 2 => 1 case _ => 1)
          else
            (match rule case 4 => 2 case 5 => 2 case 6 => 6 case 7 => 8 case _ => 1))
        else
          (if rule < 13 then
            (match rule case 9 => 2 case 10 => 0 case 11 => 2 case _ => 1)
          else
            (match rule case 13 => 1 case 14 => 4 case 15 => 6 case 16 => 10 case _ => 9)))
      else
        (if rule < 27 then
          (if rule < 22 then
            (match rule case 18 => 1 case 19 => 3 case 20 => 3 case _ => 2)
          else
            (match rule case 22 => 3 case 23 => 2 case 24 => 1 case 25 => 3 case _ => 0))
        else
          (if rule < 32 then
            (match rule case 27 => 3 case 28 => 1 case 29 => 1 case 30 => 1 case _ => 1)
          else
            1)))
    else
      (if rule < 55 then
        (if rule < 46 then
          (if rule < 41 then
            1
          else
            (match rule case 41 => 1 case 42 => 1 case 43 => 1 case 44 => 1 case _ => 3))
        else
          (if rule < 50 then
            (match rule case 46 => 6 case 47 => 4 case 48 => 8 case _ => 7)
          else
            (match rule case 50 => 5 case 51 => 3 case 52 => 2 case 53 => 5 case _ => 7)))
      else
        (if rule < 64 then
          (if rule < 59 then
            (match rule case 55 => 3 case 56 => 5 case 57 => 7 case _ => 3)
          else
            (match rule case 59 => 5 case 60 => 1 case 61 => 2 case 62 => 6 case _ => 2))
        else
          (if rule < 69 then
            (match rule case 64 => 2 case 65 => 3 case 66 => 3 case 67 => 3 case _ => 2)
          else
            (match rule case 69 => 2 case 70 => 3 case 71 => 3 case 72 => 3 case _ => 3)))))
  }
}
