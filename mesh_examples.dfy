/** Worked cases: concrete codes and what the model computes for them,
    for both crates' bounds.  Each move is derived from the general
    characterisation of moves by anchors, so the cases also exercise it. */
module MeshExamples {
  import opened MeshBasics
  import opened Mesh1
  import opened MeshCode
  import opened MeshStep
  import opened MeshAdjacency

  // ---------------------------------------------------------------------
  // Moves and adjacency read off the anchors.

  /** A move lands on `c` when `c` is valid and its anchor is the start's
      displaced by one cell in that direction. */
  lemma StepByAnchors(b: Bounds, k: Level, a: string, d: Dir, c: string, sa: int, wa: int, sc: int, wc: int)
    requires b.Valid() && ValidMesh(b, k, a) && ValidMesh(b, k, c)
    requires South(b, k, a) == sa && West(b, k, a) == wa
    requires South(b, k, c) == sc && West(b, k, c) == wc
    requires sc == sa + DLat(k, d) && wc == wa + DLon(k, d)
    ensures Step(b, k, a, d) == Some(c)
  {
    StepIffDisplaced(b, k, a, c, d);
  }

  /** A move fails when the start touches the border on that side. */
  lemma StepFailsAtEdge(b: Bounds, k: Level, a: string, d: Dir, sa: int, wa: int)
    requires b.Valid() && ValidMesh(b, k, a)
    requires South(b, k, a) == sa && West(b, k, a) == wa
    requires match d
      case N => sa + Height(k) == LatHi(b)
      case E => wa + Width(k) == LonHi(b)
      case S => sa == LatLo(b)
      case W => wa == LonLo(b)
    ensures Step(b, k, a, d) == None
  {
    StepMoves(b, k, a, d);
  }

  /** Two cells whose anchors differ by one cell in direction `d` join on side `d`. */
  lemma JoinsByAnchors(b: Bounds, k: Level, a: string, c: string, d: Dir, sa: int, wa: int, sc: int, wc: int)
    requires b.Valid() && ValidMesh(b, k, a) && ValidMesh(b, k, c)
    requires South(b, k, a) == sa && West(b, k, a) == wa
    requires South(b, k, c) == sc && West(b, k, c) == wc
    requires sc == sa + DLat(k, d) && wc == wa + DLon(k, d)
    ensures IsJoining(b, k, a, c) == Joins(d)
  {
    JoiningIff(b, k, a, c, d);
  }

  /** Two cells whose anchors differ by anything other than one cell in one
      of the four directions do not join. */
  lemma NotJoiningByAnchors(b: Bounds, k: Level, a: string, c: string, sa: int, wa: int, sc: int, wc: int)
    requires b.Valid() && ValidMesh(b, k, a) && ValidMesh(b, k, c)
    requires South(b, k, a) == sa && West(b, k, a) == wa
    requires South(b, k, c) == sc && West(b, k, c) == wc
    requires !(sc == sa + Height(k) && wc == wa) && !(sc == sa - Height(k) && wc == wa)
    requires !(sc == sa && wc == wa + Width(k)) && !(sc == sa && wc == wa - Width(k))
    ensures IsJoining(b, k, a, c) == NotJoining
  {
    NotJoiningIff(b, k, a, c);
  }

  // ---------------------------------------------------------------------
  // Level 1 (root crate bounds).

  /** The four corner cells of the root crate's domain are valid; each code one field beyond them is not. */
  lemma Mesh1Corners()
    ensures ValidMesh(RootCrateBounds, 1, "6854") && ValidMesh(RootCrateBounds, 1, "3054")
    ensures ValidMesh(RootCrateBounds, 1, "3022") && ValidMesh(RootCrateBounds, 1, "6822")
    ensures !ValidMesh(RootCrateBounds, 1, "6954") && !ValidMesh(RootCrateBounds, 1, "6855")
    ensures !ValidMesh(RootCrateBounds, 1, "2954") && !ValidMesh(RootCrateBounds, 1, "3055")
    ensures !ValidMesh(RootCrateBounds, 1, "2922") && !ValidMesh(RootCrateBounds, 1, "3021")
    ensures !ValidMesh(RootCrateBounds, 1, "6922") && !ValidMesh(RootCrateBounds, 1, "6821")
  {
  }

  /** North and south moves of a level-1 cell step the latitude field, and fail past the northern and southern border. */
  lemma Mesh1NorthSouth()
    ensures Step(RootCrateBounds, 1, "3022", N) == Some("3122")
    ensures Step(RootCrateBounds, 1, "6822", N) == None
    ensures Step(RootCrateBounds, 1, "3122", S) == Some("3022")
    ensures Step(RootCrateBounds, 1, "3022", S) == None
  {
    RootAnchor3022();
    RootAnchor3122();
    StepByAnchors(RootCrateBounds, 1, "3022", N, "3122", 576000, 3513600, 595200, 3513600);
    RootAnchor6822();
    StepFailsAtEdge(RootCrateBounds, 1, "6822", N, 1305600, 3513600);
    StepByAnchors(RootCrateBounds, 1, "3122", S, "3022", 595200, 3513600, 576000, 3513600);
    StepFailsAtEdge(RootCrateBounds, 1, "3022", S, 576000, 3513600);
  }

  /** East and west moves of a level-1 cell step the longitude field, and fail past the eastern and western border. */
  lemma Mesh1EastWest()
    ensures Step(RootCrateBounds, 1, "3022", E) == Some("3023")
    ensures Step(RootCrateBounds, 1, "3054", E) == None
    ensures Step(RootCrateBounds, 1, "3023", W) == Some("3022")
    ensures Step(RootCrateBounds, 1, "3022", W) == None
  {
    RootAnchor3022();
    RootAnchor3023();
    StepByAnchors(RootCrateBounds, 1, "3022", E, "3023", 576000, 3513600, 576000, 3542400);
    RootAnchor3054();
    StepFailsAtEdge(RootCrateBounds, 1, "3054", E, 576000, 4435200);
    StepByAnchors(RootCrateBounds, 1, "3023", W, "3022", 576000, 3542400, 576000, 3513600);
    StepFailsAtEdge(RootCrateBounds, 1, "3022", W, 576000, 3513600);
  }

  /** The cell above is reported as joining on the north. */
  lemma Mesh1JoinsNorth()
    ensures IsJoining(RootCrateBounds, 1, "3123", "3223") == Joins(N)
  {
    RootAnchor3123();
    RootAnchor3223();
    JoinsByAnchors(RootCrateBounds, 1, "3123", "3223", N, 595200, 3542400, 614400, 3542400);
  }

  /** The cell to the left is reported as joining on the west. */
  lemma Mesh1JoinsWest()
    ensures IsJoining(RootCrateBounds, 1, "3123", "3122") == Joins(W)
  {
    RootAnchor3123();
    RootAnchor3122();
    JoinsByAnchors(RootCrateBounds, 1, "3123", "3122", W, 595200, 3542400, 595200, 3513600);
  }

  /** A diagonal neighbour is not reported as joining. */
  lemma Mesh1DiagonalNotJoining()
    ensures IsJoining(RootCrateBounds, 1, "3123", "3224") == NotJoining
  {
    RootAnchor3123();
    RootAnchor3224();
    NotJoiningByAnchors(RootCrateBounds, 1, "3123", "3224", 595200, 3542400, 614400, 3571200);
  }

  /** A cell two steps north is not reported as joining. */
  lemma Mesh1TwoStepsNotJoining()
    ensures IsJoining(RootCrateBounds, 1, "3224", "3424") == NotJoining
  {
    RootAnchor3224();
    RootAnchor3424();
    NotJoiningByAnchors(RootCrateBounds, 1, "3224", "3424", 614400, 3571200, 652800, 3571200);
  }

  // ---------------------------------------------------------------------
  // Level 2.

  /** From the top row, a north move carries into the parent and restarts at row 0. */
  lemma Mesh2NorthCarry()
    ensures Step(RootCrateBounds, 2, "513576", N) == Some("523506")
  {
    RootAnchor513576();
    RootAnchor523506();
    StepByAnchors(RootCrateBounds, 2, "513576", N, "523506", 996000, 3909600, 998400, 3909600);
  }

  /** From the last column, an east move carries into the parent and restarts at column 0. */
  lemma Mesh2EastCarry()
    ensures Step(RootCrateBounds, 2, "513547", E) == Some("513640")
  {
    RootAnchor513547();
    RootAnchor513640();
    StepByAnchors(RootCrateBounds, 2, "513547", E, "513640", 988800, 3913200, 988800, 3916800);
  }

  /** From row 0, a south move carries into the parent and restarts at row 7. */
  lemma Mesh2SouthCarry()
    ensures Step(RootCrateBounds, 2, "513506", S) == Some("503576")
  {
    RootAnchor513506();
    RootAnchor503576();
    StepByAnchors(RootCrateBounds, 2, "513506", S, "503576", 979200, 3909600, 976800, 3909600);
  }

  /** From column 0, a west move carries into the parent and restarts at column 7. */
  lemma Mesh2WestCarry()
    ensures Step(RootCrateBounds, 2, "513540", W) == Some("513447")
  {
    RootAnchor513540();
    RootAnchor513447();
    StepByAnchors(RootCrateBounds, 2, "513540", W, "513447", 988800, 3888000, 988800, 3884400);
  }

  /** At the northern and eastern borders a level-2 move fails: 682270 cannot
      move north and 305407 cannot move east. */
  lemma Mesh2Borders()
    ensures Step(RootCrateBounds, 2, "682270", N) == None
    ensures Step(RootCrateBounds, 2, "305407", E) == None
  {
    RootAnchor682270();
    StepFailsAtEdge(RootCrateBounds, 2, "682270", N, 1322400, 3513600);
    RootAnchor305407();
    StepFailsAtEdge(RootCrateBounds, 2, "305407", E, 576000, 4460400);
  }

  /** The south-western corner cell can move neither south nor west. */
  lemma Mesh2BordersSouthWest()
    ensures Step(RootCrateBounds, 2, "302200", S) == None
    ensures Step(RootCrateBounds, 2, "302200", W) == None
  {
    RootAnchor302200();
    StepFailsAtEdge(RootCrateBounds, 2, "302200", S, 576000, 3513600);
    StepFailsAtEdge(RootCrateBounds, 2, "302200", W, 576000, 3513600);
  }

  /** Cells on either side of a level-1 boundary are reported as joining. */
  lemma Mesh2JoinsAcrossParents()
    ensures IsJoining(RootCrateBounds, 2, "513570", "523500") == Joins(N)
  {
    RootAnchor513570();
    RootAnchor523500();
    JoinsByAnchors(RootCrateBounds, 2, "513570", "523500", N, 996000, 3888000, 998400, 3888000);
  }

  /** A diagonal neighbour is not reported as joining. */
  lemma Mesh2DiagonalNotJoining()
    ensures IsJoining(RootCrateBounds, 2, "513546", "513557") == NotJoining
  {
    RootAnchor513546();
    RootAnchor513557();
    NotJoiningByAnchors(RootCrateBounds, 2, "513546", "513557", 988800, 3909600, 991200, 3913200);
  }

  // ---------------------------------------------------------------------
  // Level 2 under the gsjp crate's bounds.

  /** The cells at the four extreme corners of the gsjp domain are valid; row or column digits beyond 7, and the codes one cell beyond the corners, are not. */
  lemma GsjpMesh2Extremes()
    ensures ValidMesh(GsjpBounds, 2, "714977") && ValidMesh(GsjpBounds, 2, "304907")
    ensures ValidMesh(GsjpBounds, 2, "301800") && ValidMesh(GsjpBounds, 2, "711870")
    ensures !ValidMesh(GsjpBounds, 2, "695480") && !ValidMesh(GsjpBounds, 2, "695408")
    ensures !ValidMesh(GsjpBounds, 2, "724907") && !ValidMesh(GsjpBounds, 2, "725070")
    ensures !ValidMesh(GsjpBounds, 2, "294977") && !ValidMesh(GsjpBounds, 2, "305000")
    ensures !ValidMesh(GsjpBounds, 2, "291870") && !ValidMesh(GsjpBounds, 2, "301707")
    ensures !ValidMesh(GsjpBounds, 2, "721800") && !ValidMesh(GsjpBounds, 2, "711777")
  {
  }

  /** North moves near the northern border of the gsjp domain. */
  lemma GsjpMesh2North()
    ensures Step(GsjpBounds, 2, "714967", N) == Some("714977")
    ensures Step(GsjpBounds, 2, "714977", N) == None
  {
    GsjpAnchor714967();
    GsjpAnchor714977();
    StepByAnchors(GsjpBounds, 2, "714967", N, "714977", 1377600, 4316400, 1380000, 4316400);
    StepFailsAtEdge(GsjpBounds, 2, "714977", N, 1380000, 4316400);
  }

  /** The western and eastern extreme cells cannot move further out. */
  lemma GsjpMesh2Corners()
    ensures Step(GsjpBounds, 2, "301800", W) == None
    ensures Step(GsjpBounds, 2, "304907", E) == None
  {
    GsjpAnchor301800();
    StepFailsAtEdge(GsjpBounds, 2, "301800", W, 576000, 3398400);
    GsjpAnchor304907();
    StepFailsAtEdge(GsjpBounds, 2, "304907", E, 576000, 4316400);
  }

  /** A move off the south-western corner cell inward succeeds (301800 north
      is 301810), and 302200 on the southern border cannot move south. */
  lemma GsjpMesh2Inside()
    ensures Step(GsjpBounds, 2, "301800", N) == Some("301810")
    ensures Step(GsjpBounds, 2, "302200", S) == None
  {
    GsjpAnchor301800();
    GsjpAnchor301810();
    StepByAnchors(GsjpBounds, 2, "301800", N, "301810", 576000, 3398400, 578400, 3398400);
    GsjpAnchor302200();
    StepFailsAtEdge(GsjpBounds, 2, "302200", S, 576000, 3513600);
  }

  // ---------------------------------------------------------------------
  // Level 3.

  /** From row 9, a north move carries into the parent and restarts at row 0. */
  lemma Mesh3NorthCarry()
    ensures Step(RootCrateBounds, 3, "51354695", N) == Some("51355605")
  {
    RootAnchor51354695();
    RootAnchor51355605();
    StepByAnchors(RootCrateBounds, 3, "51354695", N, "51355605", 990960, 3911400, 991200, 3911400);
  }

  /** From column 9, an east move carries into the parent and restarts at column 0. */
  lemma Mesh3EastCarry()
    ensures Step(RootCrateBounds, 3, "51354639", E) == Some("51354730")
  {
    RootAnchor51354639();
    RootAnchor51354730();
    StepByAnchors(RootCrateBounds, 3, "51354639", E, "51354730", 989520, 3912840, 989520, 3913200);
  }

  /** From row 0, a south move carries into the parent and restarts at row 9. */
  lemma Mesh3SouthCarry()
    ensures Step(RootCrateBounds, 3, "51350600", S) == Some("50357690")
  {
    RootAnchor51350600();
    RootAnchor50357690();
    StepByAnchors(RootCrateBounds, 3, "51350600", S, "50357690", 979200, 3909600, 978960, 3909600);
  }

  /** From column 0, a west move carries into the parent and restarts at column 9. */
  lemma Mesh3WestCarry()
    ensures Step(RootCrateBounds, 3, "51354030", W) == Some("51344739")
  {
    RootAnchor51354030();
    RootAnchor51344739();
    StepByAnchors(RootCrateBounds, 3, "51354030", W, "51344739", 989520, 3888000, 989520, 3887640);
  }

  /** Moves fail at the border of the domain. */
  lemma Mesh3Borders()
    ensures Step(RootCrateBounds, 3, "68227090", N) == None
    ensures Step(RootCrateBounds, 3, "30540709", E) == None
  {
    RootAnchor68227090();
    StepFailsAtEdge(RootCrateBounds, 3, "68227090", N, 1324560, 3513600);
    RootAnchor30540709();
    StepFailsAtEdge(RootCrateBounds, 3, "30540709", E, 576000, 4463640);
  }

  /** The south-western corner cell can move neither south nor west. */
  lemma Mesh3BordersSouthWest()
    ensures Step(RootCrateBounds, 3, "30220000", S) == None
    ensures Step(RootCrateBounds, 3, "30220000", W) == None
  {
    RootAnchor30220000();
    StepFailsAtEdge(RootCrateBounds, 3, "30220000", S, 576000, 3513600);
    StepFailsAtEdge(RootCrateBounds, 3, "30220000", W, 576000, 3513600);
  }

  /** Cells on either side of a level-1 boundary are reported as joining. */
  lemma Mesh3JoinsAcrossParents()
    ensures IsJoining(RootCrateBounds, 3, "51350709", "51360000") == Joins(E)
  {
    RootAnchor51350709();
    RootAnchor51360000();
    JoinsByAnchors(RootCrateBounds, 3, "51350709", "51360000", E, 979200, 3916440, 979200, 3916800);
  }

  /** A cell two steps east is not reported as joining. */
  lemma Mesh3TwoStepsNotJoining()
    ensures IsJoining(RootCrateBounds, 3, "51354635", "51354637") == NotJoining
  {
    RootAnchor51354635();
    RootAnchor51354637();
    NotJoiningByAnchors(RootCrateBounds, 3, "51354635", "51354637", 989520, 3911400, 989520, 3912120);
  }

  // ---------------------------------------------------------------------
  // Level 4.

  /** Quadrant digits run from 1 to 4. */
  lemma Mesh4Quadrants()
    ensures ValidMesh(RootCrateBounds, 4, "533935991") && ValidMesh(RootCrateBounds, 4, "533935994")
    ensures !ValidMesh(RootCrateBounds, 4, "533935990") && !ValidMesh(RootCrateBounds, 4, "533935995")
  {
  }

  /** North: quadrants 1 and 2 move up inside the parent, 3 and 4 carry. */
  lemma Mesh4North()
    ensures Step(RootCrateBounds, 4, "533935991", N) == Some("533935993")
    ensures Step(RootCrateBounds, 4, "533935993", N) == Some("533945091")
  {
    RootAnchor533935991();
    RootAnchor533935993();
    StepByAnchors(RootCrateBounds, 4, "533935991", N, "533935993", 1026960, 4024440, 1027080, 4024440);
    RootAnchor533945091();
    StepByAnchors(RootCrateBounds, 4, "533935993", N, "533945091", 1027080, 4024440, 1027200, 4024440);
  }

  /** A north carry that climbs two levels. */
  lemma Mesh4NorthCarryTwice()
    ensures Step(RootCrateBounds, 4, "533977993", N) == Some("543907091")
  {
    RootAnchor533977993();
    RootAnchor543907091();
    StepByAnchors(RootCrateBounds, 4, "533977993", N, "543907091", 1036680, 4031640, 1036800, 4031640);
  }

  /** East: quadrants 1 and 3 move right inside the parent, 2 and 4 carry. */
  lemma Mesh4East()
    ensures Step(RootCrateBounds, 4, "533935991", E) == Some("533935992")
    ensures Step(RootCrateBounds, 4, "533935992", E) == Some("533936901")
  {
    RootAnchor533935991();
    RootAnchor533935992();
    StepByAnchors(RootCrateBounds, 4, "533935991", E, "533935992", 1026960, 4024440, 1026960, 4024620);
    RootAnchor533936901();
    StepByAnchors(RootCrateBounds, 4, "533935992", E, "533936901", 1026960, 4024620, 1026960, 4024800);
  }

  /** An east carry that climbs two levels. */
  lemma Mesh4EastCarryTwice()
    ensures Step(RootCrateBounds, 4, "533977994", E) == Some("534070903")
  {
    RootAnchor533977994();
    RootAnchor534070903();
    StepByAnchors(RootCrateBounds, 4, "533977994", E, "534070903", 1036680, 4031820, 1036680, 4032000);
  }

  /** South: quadrants 3 and 4 move down inside the parent, 1 and 2 carry. */
  lemma Mesh4South()
    ensures Step(RootCrateBounds, 4, "533935993", S) == Some("533935991")
    ensures Step(RootCrateBounds, 4, "533935991", S) == Some("533935893")
  {
    RootAnchor533935993();
    RootAnchor533935991();
    StepByAnchors(RootCrateBounds, 4, "533935993", S, "533935991", 1027080, 4024440, 1026960, 4024440);
    RootAnchor533935893();
    StepByAnchors(RootCrateBounds, 4, "533935991", S, "533935893", 1026960, 4024440, 1026840, 4024440);
  }

  /** A south carry that climbs three levels. */
  lemma Mesh4SouthCarryTwice()
    ensures Step(RootCrateBounds, 4, "503900001", S) == Some("493970903")
  {
    RootAnchor503900001();
    RootAnchor493970903();
    StepByAnchors(RootCrateBounds, 4, "503900001", S, "493970903", 960000, 4003200, 959880, 4003200);
  }

  /** West: quadrants 2 and 4 move left inside the parent, 1 and 3 carry. */
  lemma Mesh4West()
    ensures Step(RootCrateBounds, 4, "533935992", W) == Some("533935991")
    ensures Step(RootCrateBounds, 4, "533935991", W) == Some("533935982")
  {
    RootAnchor533935992();
    RootAnchor533935991();
    StepByAnchors(RootCrateBounds, 4, "533935992", W, "533935991", 1026960, 4024620, 1026960, 4024440);
    RootAnchor533935982();
    StepByAnchors(RootCrateBounds, 4, "533935991", W, "533935982", 1026960, 4024440, 1026960, 4024260);
  }

  /** A west carry that climbs three levels. */
  lemma Mesh4WestCarryTwice()
    ensures Step(RootCrateBounds, 4, "533030901", W) == Some("532937992")
  {
    RootAnchor533030901();
    RootAnchor532937992();
    StepByAnchors(RootCrateBounds, 4, "533030901", W, "532937992", 1026960, 3744000, 1026960, 3743820);
  }

  /** A diagonal neighbour is not reported as joining. */
  lemma Mesh4DiagonalNotJoining()
    ensures IsJoining(RootCrateBounds, 4, "513546351", "513546354") == NotJoining
  {
    RootAnchor513546351();
    RootAnchor513546354();
    NotJoiningByAnchors(RootCrateBounds, 4, "513546351", "513546354", 989520, 3911400, 989640, 3911580);
  }

  // ---------------------------------------------------------------------
  // Level 5 (gsjp crate).

  /** Quadrant digits run from 1 to 4. */
  lemma Mesh5Quadrants()
    ensures ValidMesh(GsjpBounds, 5, "5339359911") && ValidMesh(GsjpBounds, 5, "5339359914")
    ensures !ValidMesh(GsjpBounds, 5, "5339359910") && !ValidMesh(GsjpBounds, 5, "5339359915")
  {
  }

  /** North inside the parent, and a carry that climbs four levels. */
  lemma Mesh5North()
    ensures Step(GsjpBounds, 5, "5339359911", N) == Some("5339359913")
    ensures Step(GsjpBounds, 5, "5339779933", N) == Some("5439070911")
  {
    GsjpAnchor5339359911();
    GsjpAnchor5339359913();
    StepByAnchors(GsjpBounds, 5, "5339359911", N, "5339359913", 1026960, 4024440, 1027020, 4024440);
    GsjpAnchor5339779933();
    GsjpAnchor5439070911();
    StepByAnchors(GsjpBounds, 5, "5339779933", N, "5439070911", 1036740, 4031640, 1036800, 4031640);
  }

  /** East inside the parent, and a carry that climbs four levels. */
  lemma Mesh5East()
    ensures Step(GsjpBounds, 5, "5339359914", E) == Some("5339359923")
    ensures Step(GsjpBounds, 5, "5339779944", E) == Some("5340709033")
  {
    GsjpAnchor5339359914();
    GsjpAnchor5339359923();
    StepByAnchors(GsjpBounds, 5, "5339359914", E, "5339359923", 1027020, 4024530, 1027020, 4024620);
    GsjpAnchor5339779944();
    GsjpAnchor5340709033();
    StepByAnchors(GsjpBounds, 5, "5339779944", E, "5340709033", 1036740, 4031910, 1036740, 4032000);
  }

  /** South with a carry, and a carry that climbs four levels. */
  lemma Mesh5South()
    ensures Step(GsjpBounds, 5, "5339359911", S) == Some("5339358933")
    ensures Step(GsjpBounds, 5, "5039000011", S) == Some("4939709033")
  {
    GsjpAnchor5339359911();
    GsjpAnchor5339358933();
    StepByAnchors(GsjpBounds, 5, "5339359911", S, "5339358933", 1026960, 4024440, 1026900, 4024440);
    GsjpAnchor5039000011();
    GsjpAnchor4939709033();
    StepByAnchors(GsjpBounds, 5, "5039000011", S, "4939709033", 960000, 4003200, 959940, 4003200);
  }

  /** West with a carry, and a carry that climbs four levels. */
  lemma Mesh5West()
    ensures Step(GsjpBounds, 5, "5339359911", W) == Some("5339359822")
    ensures Step(GsjpBounds, 5, "5330309011", W) == Some("5329379922")
  {
    GsjpAnchor5339359911();
    GsjpAnchor5339359822();
    StepByAnchors(GsjpBounds, 5, "5339359911", W, "5339359822", 1026960, 4024440, 1026960, 4024350);
    GsjpAnchor5330309011();
    GsjpAnchor5329379922();
    StepByAnchors(GsjpBounds, 5, "5330309011", W, "5329379922", 1026960, 3744000, 1026960, 3743910);
  }

  /** Cells on either side of a level-1 boundary are reported as joining. */
  lemma Mesh5JoinsAcrossParents()
    ensures IsJoining(GsjpBounds, 5, "5135709033", "5235000011") == Joins(N)
  {
    GsjpAnchor5135709033();
    GsjpAnchor5235000011();
    JoinsByAnchors(GsjpBounds, 5, "5135709033", "5235000011", N, 998340, 3888000, 998400, 3888000);
  }

  /** A diagonal neighbour is not reported as joining. */
  lemma Mesh5DiagonalNotJoining()
    ensures IsJoining(GsjpBounds, 5, "5135463511", "5135462534") == NotJoining
  {
    GsjpAnchor5135463511();
    GsjpAnchor5135462534();
    NotJoiningByAnchors(GsjpBounds, 5, "5135463511", "5135462534", 989520, 3911400, 989460, 3911490);
  }

  // ---------------------------------------------------------------------
  // Level 6 (gsjp crate).

  /** Quadrant digits run from 1 to 4. */
  lemma Mesh6Quadrants()
    ensures ValidMesh(GsjpBounds, 6, "53393599111") && ValidMesh(GsjpBounds, 6, "53393599114")
    ensures !ValidMesh(GsjpBounds, 6, "53393599110") && !ValidMesh(GsjpBounds, 6, "53393599115")
  {
  }

  /** North with a carry, and a carry that climbs five levels. */
  lemma Mesh6North()
    ensures Step(GsjpBounds, 6, "53393599113", N) == Some("53393599131")
    ensures Step(GsjpBounds, 6, "53397799333", N) == Some("54390709111")
  {
    GsjpAnchor53393599113();
    GsjpAnchor53393599131();
    StepByAnchors(GsjpBounds, 6, "53393599113", N, "53393599131", 1026990, 4024440, 1027020, 4024440);
    GsjpAnchor53397799333();
    GsjpAnchor54390709111();
    StepByAnchors(GsjpBounds, 6, "53397799333", N, "54390709111", 1036770, 4031640, 1036800, 4031640);
  }

  /** East with a carry, and a carry that climbs five levels. */
  lemma Mesh6East()
    ensures Step(GsjpBounds, 6, "53393599112", E) == Some("53393599121")
    ensures Step(GsjpBounds, 6, "53397799444", E) == Some("53407090333")
  {
    GsjpAnchor53393599112();
    GsjpAnchor53393599121();
    StepByAnchors(GsjpBounds, 6, "53393599112", E, "53393599121", 1026960, 4024485, 1026960, 4024530);
    GsjpAnchor53397799444();
    GsjpAnchor53407090333();
    StepByAnchors(GsjpBounds, 6, "53397799444", E, "53407090333", 1036770, 4031955, 1036770, 4032000);
  }

  /** South with a carry, and a carry that climbs five levels. */
  lemma Mesh6South()
    ensures Step(GsjpBounds, 6, "53393599111", S) == Some("53393589333")
    ensures Step(GsjpBounds, 6, "50390000111", S) == Some("49397090333")
  {
    GsjpAnchor53393599111();
    GsjpAnchor53393589333();
    StepByAnchors(GsjpBounds, 6, "53393599111", S, "53393589333", 1026960, 4024440, 1026930, 4024440);
    GsjpAnchor50390000111();
    GsjpAnchor49397090333();
    StepByAnchors(GsjpBounds, 6, "50390000111", S, "49397090333", 960000, 4003200, 959970, 4003200);
  }

  /** West with a carry, and a carry that climbs five levels. */
  lemma Mesh6West()
    ensures Step(GsjpBounds, 6, "53393599111", W) == Some("53393598222")
    ensures Step(GsjpBounds, 6, "53303090111", W) == Some("53293799222")
  {
    GsjpAnchor53393599111();
    GsjpAnchor53393598222();
    StepByAnchors(GsjpBounds, 6, "53393599111", W, "53393598222", 1026960, 4024440, 1026960, 4024395);
    GsjpAnchor53303090111();
    GsjpAnchor53293799222();
    StepByAnchors(GsjpBounds, 6, "53303090111", W, "53293799222", 1026960, 3744000, 1026960, 3743955);
  }

  /** Cells on either side of a level-1 boundary are reported as joining. */
  lemma Mesh6JoinsAcrossParents()
    ensures IsJoining(GsjpBounds, 6, "51350000111", "51340709222") == Joins(W)
  {
    GsjpAnchor51350000111();
    GsjpAnchor51340709222();
    JoinsByAnchors(GsjpBounds, 6, "51350000111", "51340709222", W, 979200, 3888000, 979200, 3887955);
  }

  /** A diagonal neighbour is not reported as joining. */
  lemma Mesh6DiagonalNotJoining()
    ensures IsJoining(GsjpBounds, 6, "51354635111", "51354624444") == NotJoining
  {
    GsjpAnchor51354635111();
    GsjpAnchor51354624444();
    NotJoiningByAnchors(GsjpBounds, 6, "51354635111", "51354624444", 989520, 3911400, 989490, 3911355);
  }

  // ---------------------------------------------------------------------
  // The anchors of the codes used above.

  /** The level-1 cell 3022 and its south-west corner. */
  lemma RootAnchor3022()
    ensures ValidMesh(RootCrateBounds, 1, "3022")
    ensures South(RootCrateBounds, 1, "3022") == 576000 && West(RootCrateBounds, 1, "3022") == 3513600
  {
  }

  /** The level-1 cell 3023 and its south-west corner. */
  lemma RootAnchor3023()
    ensures ValidMesh(RootCrateBounds, 1, "3023")
    ensures South(RootCrateBounds, 1, "3023") == 576000 && West(RootCrateBounds, 1, "3023") == 3542400
  {
  }

  /** The level-1 cell 3054 and its south-west corner. */
  lemma RootAnchor3054()
    ensures ValidMesh(RootCrateBounds, 1, "3054")
    ensures South(RootCrateBounds, 1, "3054") == 576000 && West(RootCrateBounds, 1, "3054") == 4435200
  {
  }

  /** The level-1 cell 3122 and its south-west corner. */
  lemma RootAnchor3122()
    ensures ValidMesh(RootCrateBounds, 1, "3122")
    ensures South(RootCrateBounds, 1, "3122") == 595200 && West(RootCrateBounds, 1, "3122") == 3513600
  {
  }

  /** The level-1 cell 3123 and its south-west corner. */
  lemma RootAnchor3123()
    ensures ValidMesh(RootCrateBounds, 1, "3123")
    ensures South(RootCrateBounds, 1, "3123") == 595200 && West(RootCrateBounds, 1, "3123") == 3542400
  {
  }

  /** The level-1 cell 3223 and its south-west corner. */
  lemma RootAnchor3223()
    ensures ValidMesh(RootCrateBounds, 1, "3223")
    ensures South(RootCrateBounds, 1, "3223") == 614400 && West(RootCrateBounds, 1, "3223") == 3542400
  {
  }

  /** The level-1 cell 3224 and its south-west corner. */
  lemma RootAnchor3224()
    ensures ValidMesh(RootCrateBounds, 1, "3224")
    ensures South(RootCrateBounds, 1, "3224") == 614400 && West(RootCrateBounds, 1, "3224") == 3571200
  {
  }

  /** The level-1 cell 3424 and its south-west corner. */
  lemma RootAnchor3424()
    ensures ValidMesh(RootCrateBounds, 1, "3424")
    ensures South(RootCrateBounds, 1, "3424") == 652800 && West(RootCrateBounds, 1, "3424") == 3571200
  {
  }

  /** The level-1 cell 6822 and its south-west corner. */
  lemma RootAnchor6822()
    ensures ValidMesh(RootCrateBounds, 1, "6822")
    ensures South(RootCrateBounds, 1, "6822") == 1305600 && West(RootCrateBounds, 1, "6822") == 3513600
  {
  }

  /** The level-2 cell 301800 and its south-west corner. */
  lemma GsjpAnchor301800()
    ensures ValidMesh(GsjpBounds, 2, "301800")
    ensures South(GsjpBounds, 2, "301800") == 576000 && West(GsjpBounds, 2, "301800") == 3398400
  {
  }

  /** The level-2 cell 301810 and its south-west corner. */
  lemma GsjpAnchor301810()
    ensures ValidMesh(GsjpBounds, 2, "301810")
    ensures South(GsjpBounds, 2, "301810") == 578400 && West(GsjpBounds, 2, "301810") == 3398400
  {
  }

  /** The level-2 cell 302200 and its south-west corner. */
  lemma GsjpAnchor302200()
    ensures ValidMesh(GsjpBounds, 2, "302200")
    ensures South(GsjpBounds, 2, "302200") == 576000 && West(GsjpBounds, 2, "302200") == 3513600
  {
  }

  /** The level-2 cell 304907 and its south-west corner. */
  lemma GsjpAnchor304907()
    ensures ValidMesh(GsjpBounds, 2, "304907")
    ensures South(GsjpBounds, 2, "304907") == 576000 && West(GsjpBounds, 2, "304907") == 4316400
  {
  }

  /** The level-2 cell 714967 and its south-west corner. */
  lemma GsjpAnchor714967()
    ensures ValidMesh(GsjpBounds, 2, "714967")
    ensures South(GsjpBounds, 2, "714967") == 1377600 && West(GsjpBounds, 2, "714967") == 4316400
  {
  }

  /** The level-2 cell 714977 and its south-west corner. */
  lemma GsjpAnchor714977()
    ensures ValidMesh(GsjpBounds, 2, "714977")
    ensures South(GsjpBounds, 2, "714977") == 1380000 && West(GsjpBounds, 2, "714977") == 4316400
  {
  }

  /** The level-2 cell 302200 and its south-west corner. */
  lemma RootAnchor302200()
    ensures ValidMesh(RootCrateBounds, 2, "302200")
    ensures South(RootCrateBounds, 2, "302200") == 576000 && West(RootCrateBounds, 2, "302200") == 3513600
  {
  }

  /** The level-2 cell 305407 and its south-west corner. */
  lemma RootAnchor305407()
    ensures ValidMesh(RootCrateBounds, 2, "305407")
    ensures South(RootCrateBounds, 2, "305407") == 576000 && West(RootCrateBounds, 2, "305407") == 4460400
  {
  }

  /** The level-2 cell 503576 and its south-west corner. */
  lemma RootAnchor503576()
    ensures ValidMesh(RootCrateBounds, 2, "503576")
    ensures South(RootCrateBounds, 2, "503576") == 976800 && West(RootCrateBounds, 2, "503576") == 3909600
  {
  }

  /** The level-2 cell 513447 and its south-west corner. */
  lemma RootAnchor513447()
    ensures ValidMesh(RootCrateBounds, 2, "513447")
    ensures South(RootCrateBounds, 2, "513447") == 988800 && West(RootCrateBounds, 2, "513447") == 3884400
  {
  }

  /** The level-2 cell 513506 and its south-west corner. */
  lemma RootAnchor513506()
    ensures ValidMesh(RootCrateBounds, 2, "513506")
    ensures South(RootCrateBounds, 2, "513506") == 979200 && West(RootCrateBounds, 2, "513506") == 3909600
  {
  }

  /** The level-2 cell 513540 and its south-west corner. */
  lemma RootAnchor513540()
    ensures ValidMesh(RootCrateBounds, 2, "513540")
    ensures South(RootCrateBounds, 2, "513540") == 988800 && West(RootCrateBounds, 2, "513540") == 3888000
  {
  }

  /** The level-2 cell 513546 and its south-west corner. */
  lemma RootAnchor513546()
    ensures ValidMesh(RootCrateBounds, 2, "513546")
    ensures South(RootCrateBounds, 2, "513546") == 988800 && West(RootCrateBounds, 2, "513546") == 3909600
  {
  }

  /** The level-2 cell 513547 and its south-west corner. */
  lemma RootAnchor513547()
    ensures ValidMesh(RootCrateBounds, 2, "513547")
    ensures South(RootCrateBounds, 2, "513547") == 988800 && West(RootCrateBounds, 2, "513547") == 3913200
  {
  }

  /** The level-2 cell 513557 and its south-west corner. */
  lemma RootAnchor513557()
    ensures ValidMesh(RootCrateBounds, 2, "513557")
    ensures South(RootCrateBounds, 2, "513557") == 991200 && West(RootCrateBounds, 2, "513557") == 3913200
  {
  }

  /** The level-2 cell 513570 and its south-west corner. */
  lemma RootAnchor513570()
    ensures ValidMesh(RootCrateBounds, 2, "513570")
    ensures South(RootCrateBounds, 2, "513570") == 996000 && West(RootCrateBounds, 2, "513570") == 3888000
  {
  }

  /** The level-2 cell 513576 and its south-west corner. */
  lemma RootAnchor513576()
    ensures ValidMesh(RootCrateBounds, 2, "513576")
    ensures South(RootCrateBounds, 2, "513576") == 996000 && West(RootCrateBounds, 2, "513576") == 3909600
  {
  }

  /** The level-2 cell 513640 and its south-west corner. */
  lemma RootAnchor513640()
    ensures ValidMesh(RootCrateBounds, 2, "513640")
    ensures South(RootCrateBounds, 2, "513640") == 988800 && West(RootCrateBounds, 2, "513640") == 3916800
  {
  }

  /** The level-2 cell 523500 and its south-west corner. */
  lemma RootAnchor523500()
    ensures ValidMesh(RootCrateBounds, 2, "523500")
    ensures South(RootCrateBounds, 2, "523500") == 998400 && West(RootCrateBounds, 2, "523500") == 3888000
  {
  }

  /** The level-2 cell 523506 and its south-west corner. */
  lemma RootAnchor523506()
    ensures ValidMesh(RootCrateBounds, 2, "523506")
    ensures South(RootCrateBounds, 2, "523506") == 998400 && West(RootCrateBounds, 2, "523506") == 3909600
  {
  }

  /** The level-2 cell 682270 and its south-west corner. */
  lemma RootAnchor682270()
    ensures ValidMesh(RootCrateBounds, 2, "682270")
    ensures South(RootCrateBounds, 2, "682270") == 1322400 && West(RootCrateBounds, 2, "682270") == 3513600
  {
  }

  /** The level-3 cell 30220000 and its south-west corner. */
  lemma RootAnchor30220000()
    ensures ValidMesh(RootCrateBounds, 3, "30220000")
    ensures South(RootCrateBounds, 3, "30220000") == 576000 && West(RootCrateBounds, 3, "30220000") == 3513600
  {
  }

  /** The level-3 cell 30540709 and its south-west corner. */
  lemma RootAnchor30540709()
    ensures ValidMesh(RootCrateBounds, 3, "30540709")
    ensures South(RootCrateBounds, 3, "30540709") == 576000 && West(RootCrateBounds, 3, "30540709") == 4463640
  {
  }

  /** The level-3 cell 50357690 and its south-west corner. */
  lemma RootAnchor50357690()
    ensures ValidMesh(RootCrateBounds, 3, "50357690")
    ensures South(RootCrateBounds, 3, "50357690") == 978960 && West(RootCrateBounds, 3, "50357690") == 3909600
  {
  }

  /** The level-3 cell 51344739 and its south-west corner. */
  lemma RootAnchor51344739()
    ensures ValidMesh(RootCrateBounds, 3, "51344739")
    ensures South(RootCrateBounds, 3, "51344739") == 989520 && West(RootCrateBounds, 3, "51344739") == 3887640
  {
  }

  /** The level-3 cell 51350600 and its south-west corner. */
  lemma RootAnchor51350600()
    ensures ValidMesh(RootCrateBounds, 3, "51350600")
    ensures South(RootCrateBounds, 3, "51350600") == 979200 && West(RootCrateBounds, 3, "51350600") == 3909600
  {
  }

  /** The level-3 cell 51350709 and its south-west corner. */
  lemma RootAnchor51350709()
    ensures ValidMesh(RootCrateBounds, 3, "51350709")
    ensures South(RootCrateBounds, 3, "51350709") == 979200 && West(RootCrateBounds, 3, "51350709") == 3916440
  {
  }

  /** The level-3 cell 51354030 and its south-west corner. */
  lemma RootAnchor51354030()
    ensures ValidMesh(RootCrateBounds, 3, "51354030")
    ensures South(RootCrateBounds, 3, "51354030") == 989520 && West(RootCrateBounds, 3, "51354030") == 3888000
  {
  }

  /** The level-3 cell 51354635 and its south-west corner. */
  lemma RootAnchor51354635()
    ensures ValidMesh(RootCrateBounds, 3, "51354635")
    ensures South(RootCrateBounds, 3, "51354635") == 989520 && West(RootCrateBounds, 3, "51354635") == 3911400
  {
  }

  /** The level-3 cell 51354637 and its south-west corner. */
  lemma RootAnchor51354637()
    ensures ValidMesh(RootCrateBounds, 3, "51354637")
    ensures South(RootCrateBounds, 3, "51354637") == 989520 && West(RootCrateBounds, 3, "51354637") == 3912120
  {
  }

  /** The level-3 cell 51354639 and its south-west corner. */
  lemma RootAnchor51354639()
    ensures ValidMesh(RootCrateBounds, 3, "51354639")
    ensures South(RootCrateBounds, 3, "51354639") == 989520 && West(RootCrateBounds, 3, "51354639") == 3912840
  {
  }

  /** The level-3 cell 51354695 and its south-west corner. */
  lemma RootAnchor51354695()
    ensures ValidMesh(RootCrateBounds, 3, "51354695")
    ensures South(RootCrateBounds, 3, "51354695") == 990960 && West(RootCrateBounds, 3, "51354695") == 3911400
  {
  }

  /** The level-3 cell 51354730 and its south-west corner. */
  lemma RootAnchor51354730()
    ensures ValidMesh(RootCrateBounds, 3, "51354730")
    ensures South(RootCrateBounds, 3, "51354730") == 989520 && West(RootCrateBounds, 3, "51354730") == 3913200
  {
  }

  /** The level-3 cell 51355605 and its south-west corner. */
  lemma RootAnchor51355605()
    ensures ValidMesh(RootCrateBounds, 3, "51355605")
    ensures South(RootCrateBounds, 3, "51355605") == 991200 && West(RootCrateBounds, 3, "51355605") == 3911400
  {
  }

  /** The level-3 cell 51360000 and its south-west corner. */
  lemma RootAnchor51360000()
    ensures ValidMesh(RootCrateBounds, 3, "51360000")
    ensures South(RootCrateBounds, 3, "51360000") == 979200 && West(RootCrateBounds, 3, "51360000") == 3916800
  {
  }

  /** The level-3 cell 68227090 and its south-west corner. */
  lemma RootAnchor68227090()
    ensures ValidMesh(RootCrateBounds, 3, "68227090")
    ensures South(RootCrateBounds, 3, "68227090") == 1324560 && West(RootCrateBounds, 3, "68227090") == 3513600
  {
  }

  /** The level-4 cell 493970903 and its south-west corner. */
  lemma RootAnchor493970903()
    ensures ValidMesh(RootCrateBounds, 4, "493970903")
    ensures South(RootCrateBounds, 4, "493970903") == 959880 && West(RootCrateBounds, 4, "493970903") == 4003200
  {
  }

  /** The level-4 cell 503900001 and its south-west corner. */
  lemma RootAnchor503900001()
    ensures ValidMesh(RootCrateBounds, 4, "503900001")
    ensures South(RootCrateBounds, 4, "503900001") == 960000 && West(RootCrateBounds, 4, "503900001") == 4003200
  {
  }

  /** The level-4 cell 513546351 and its south-west corner. */
  lemma RootAnchor513546351()
    ensures ValidMesh(RootCrateBounds, 4, "513546351")
    ensures South(RootCrateBounds, 4, "513546351") == 989520 && West(RootCrateBounds, 4, "513546351") == 3911400
  {
  }

  /** The level-4 cell 513546354 and its south-west corner. */
  lemma RootAnchor513546354()
    ensures ValidMesh(RootCrateBounds, 4, "513546354")
    ensures South(RootCrateBounds, 4, "513546354") == 989640 && West(RootCrateBounds, 4, "513546354") == 3911580
  {
  }

  /** The level-4 cell 532937992 and its south-west corner. */
  lemma RootAnchor532937992()
    ensures ValidMesh(RootCrateBounds, 4, "532937992")
    ensures South(RootCrateBounds, 4, "532937992") == 1026960 && West(RootCrateBounds, 4, "532937992") == 3743820
  {
  }

  /** The level-4 cell 533030901 and its south-west corner. */
  lemma RootAnchor533030901()
    ensures ValidMesh(RootCrateBounds, 4, "533030901")
    ensures South(RootCrateBounds, 4, "533030901") == 1026960 && West(RootCrateBounds, 4, "533030901") == 3744000
  {
  }

  /** The level-4 cell 533935893 and its south-west corner. */
  lemma RootAnchor533935893()
    ensures ValidMesh(RootCrateBounds, 4, "533935893")
    ensures South(RootCrateBounds, 4, "533935893") == 1026840 && West(RootCrateBounds, 4, "533935893") == 4024440
  {
  }

  /** The level-4 cell 533935982 and its south-west corner. */
  lemma RootAnchor533935982()
    ensures ValidMesh(RootCrateBounds, 4, "533935982")
    ensures South(RootCrateBounds, 4, "533935982") == 1026960 && West(RootCrateBounds, 4, "533935982") == 4024260
  {
  }

  /** The level-4 cell 533935991 and its south-west corner. */
  lemma RootAnchor533935991()
    ensures ValidMesh(RootCrateBounds, 4, "533935991")
    ensures South(RootCrateBounds, 4, "533935991") == 1026960 && West(RootCrateBounds, 4, "533935991") == 4024440
  {
  }

  /** The level-4 cell 533935992 and its south-west corner. */
  lemma RootAnchor533935992()
    ensures ValidMesh(RootCrateBounds, 4, "533935992")
    ensures South(RootCrateBounds, 4, "533935992") == 1026960 && West(RootCrateBounds, 4, "533935992") == 4024620
  {
  }

  /** The level-4 cell 533935993 and its south-west corner. */
  lemma RootAnchor533935993()
    ensures ValidMesh(RootCrateBounds, 4, "533935993")
    ensures South(RootCrateBounds, 4, "533935993") == 1027080 && West(RootCrateBounds, 4, "533935993") == 4024440
  {
  }

  /** The level-4 cell 533936901 and its south-west corner. */
  lemma RootAnchor533936901()
    ensures ValidMesh(RootCrateBounds, 4, "533936901")
    ensures South(RootCrateBounds, 4, "533936901") == 1026960 && West(RootCrateBounds, 4, "533936901") == 4024800
  {
  }

  /** The level-4 cell 533945091 and its south-west corner. */
  lemma RootAnchor533945091()
    ensures ValidMesh(RootCrateBounds, 4, "533945091")
    ensures South(RootCrateBounds, 4, "533945091") == 1027200 && West(RootCrateBounds, 4, "533945091") == 4024440
  {
  }

  /** The level-4 cell 533977993 and its south-west corner. */
  lemma RootAnchor533977993()
    ensures ValidMesh(RootCrateBounds, 4, "533977993")
    ensures South(RootCrateBounds, 4, "533977993") == 1036680 && West(RootCrateBounds, 4, "533977993") == 4031640
  {
  }

  /** The level-4 cell 533977994 and its south-west corner. */
  lemma RootAnchor533977994()
    ensures ValidMesh(RootCrateBounds, 4, "533977994")
    ensures South(RootCrateBounds, 4, "533977994") == 1036680 && West(RootCrateBounds, 4, "533977994") == 4031820
  {
  }

  /** The level-4 cell 534070903 and its south-west corner. */
  lemma RootAnchor534070903()
    ensures ValidMesh(RootCrateBounds, 4, "534070903")
    ensures South(RootCrateBounds, 4, "534070903") == 1036680 && West(RootCrateBounds, 4, "534070903") == 4032000
  {
  }

  /** The level-4 cell 543907091 and its south-west corner. */
  lemma RootAnchor543907091()
    ensures ValidMesh(RootCrateBounds, 4, "543907091")
    ensures South(RootCrateBounds, 4, "543907091") == 1036800 && West(RootCrateBounds, 4, "543907091") == 4031640
  {
  }

  /** The level-5 cell 4939709033 and its south-west corner. */
  lemma GsjpAnchor4939709033()
    ensures ValidMesh(GsjpBounds, 5, "4939709033")
    ensures South(GsjpBounds, 5, "4939709033") == 959940 && West(GsjpBounds, 5, "4939709033") == 4003200
  {
  }

  /** The level-5 cell 5039000011 and its south-west corner. */
  lemma GsjpAnchor5039000011()
    ensures ValidMesh(GsjpBounds, 5, "5039000011")
    ensures South(GsjpBounds, 5, "5039000011") == 960000 && West(GsjpBounds, 5, "5039000011") == 4003200
  {
  }

  /** The level-5 cell 5135462534 and its south-west corner. */
  lemma GsjpAnchor5135462534()
    ensures ValidMesh(GsjpBounds, 5, "5135462534")
    ensures South(GsjpBounds, 5, "5135462534") == 989460 && West(GsjpBounds, 5, "5135462534") == 3911490
  {
  }

  /** The level-5 cell 5135463511 and its south-west corner. */
  lemma GsjpAnchor5135463511()
    ensures ValidMesh(GsjpBounds, 5, "5135463511")
    ensures South(GsjpBounds, 5, "5135463511") == 989520 && West(GsjpBounds, 5, "5135463511") == 3911400
  {
  }

  /** The level-5 cell 5135709033 and its south-west corner. */
  lemma GsjpAnchor5135709033()
    ensures ValidMesh(GsjpBounds, 5, "5135709033")
    ensures South(GsjpBounds, 5, "5135709033") == 998340 && West(GsjpBounds, 5, "5135709033") == 3888000
  {
  }

  /** The level-5 cell 5235000011 and its south-west corner. */
  lemma GsjpAnchor5235000011()
    ensures ValidMesh(GsjpBounds, 5, "5235000011")
    ensures South(GsjpBounds, 5, "5235000011") == 998400 && West(GsjpBounds, 5, "5235000011") == 3888000
  {
  }

  /** The level-5 cell 5329379922 and its south-west corner. */
  lemma GsjpAnchor5329379922()
    ensures ValidMesh(GsjpBounds, 5, "5329379922")
    ensures South(GsjpBounds, 5, "5329379922") == 1026960 && West(GsjpBounds, 5, "5329379922") == 3743910
  {
  }

  /** The level-5 cell 5330309011 and its south-west corner. */
  lemma GsjpAnchor5330309011()
    ensures ValidMesh(GsjpBounds, 5, "5330309011")
    ensures South(GsjpBounds, 5, "5330309011") == 1026960 && West(GsjpBounds, 5, "5330309011") == 3744000
  {
  }

  /** The level-5 cell 5339358933 and its south-west corner. */
  lemma GsjpAnchor5339358933()
    ensures ValidMesh(GsjpBounds, 5, "5339358933")
    ensures South(GsjpBounds, 5, "5339358933") == 1026900 && West(GsjpBounds, 5, "5339358933") == 4024440
  {
  }

  /** The level-5 cell 5339359822 and its south-west corner. */
  lemma GsjpAnchor5339359822()
    ensures ValidMesh(GsjpBounds, 5, "5339359822")
    ensures South(GsjpBounds, 5, "5339359822") == 1026960 && West(GsjpBounds, 5, "5339359822") == 4024350
  {
  }

  /** The level-5 cell 5339359911 and its south-west corner. */
  lemma GsjpAnchor5339359911()
    ensures ValidMesh(GsjpBounds, 5, "5339359911")
    ensures South(GsjpBounds, 5, "5339359911") == 1026960 && West(GsjpBounds, 5, "5339359911") == 4024440
  {
  }

  /** The level-5 cell 5339359913 and its south-west corner. */
  lemma GsjpAnchor5339359913()
    ensures ValidMesh(GsjpBounds, 5, "5339359913")
    ensures South(GsjpBounds, 5, "5339359913") == 1027020 && West(GsjpBounds, 5, "5339359913") == 4024440
  {
  }

  /** The level-5 cell 5339359914 and its south-west corner. */
  lemma GsjpAnchor5339359914()
    ensures ValidMesh(GsjpBounds, 5, "5339359914")
    ensures South(GsjpBounds, 5, "5339359914") == 1027020 && West(GsjpBounds, 5, "5339359914") == 4024530
  {
  }

  /** The level-5 cell 5339359923 and its south-west corner. */
  lemma GsjpAnchor5339359923()
    ensures ValidMesh(GsjpBounds, 5, "5339359923")
    ensures South(GsjpBounds, 5, "5339359923") == 1027020 && West(GsjpBounds, 5, "5339359923") == 4024620
  {
  }

  /** The level-5 cell 5339779933 and its south-west corner. */
  lemma GsjpAnchor5339779933()
    ensures ValidMesh(GsjpBounds, 5, "5339779933")
    ensures South(GsjpBounds, 5, "5339779933") == 1036740 && West(GsjpBounds, 5, "5339779933") == 4031640
  {
  }

  /** The level-5 cell 5339779944 and its south-west corner. */
  lemma GsjpAnchor5339779944()
    ensures ValidMesh(GsjpBounds, 5, "5339779944")
    ensures South(GsjpBounds, 5, "5339779944") == 1036740 && West(GsjpBounds, 5, "5339779944") == 4031910
  {
  }

  /** The level-5 cell 5340709033 and its south-west corner. */
  lemma GsjpAnchor5340709033()
    ensures ValidMesh(GsjpBounds, 5, "5340709033")
    ensures South(GsjpBounds, 5, "5340709033") == 1036740 && West(GsjpBounds, 5, "5340709033") == 4032000
  {
  }

  /** The level-5 cell 5439070911 and its south-west corner. */
  lemma GsjpAnchor5439070911()
    ensures ValidMesh(GsjpBounds, 5, "5439070911")
    ensures South(GsjpBounds, 5, "5439070911") == 1036800 && West(GsjpBounds, 5, "5439070911") == 4031640
  {
  }

  /** The level-6 cell 49397090333 and its south-west corner. */
  lemma GsjpAnchor49397090333()
    ensures ValidMesh(GsjpBounds, 6, "49397090333")
    ensures South(GsjpBounds, 6, "49397090333") == 959970 && West(GsjpBounds, 6, "49397090333") == 4003200
  {
  }

  /** The level-6 cell 50390000111 and its south-west corner. */
  lemma GsjpAnchor50390000111()
    ensures ValidMesh(GsjpBounds, 6, "50390000111")
    ensures South(GsjpBounds, 6, "50390000111") == 960000 && West(GsjpBounds, 6, "50390000111") == 4003200
  {
  }

  /** The level-6 cell 51340709222 and its south-west corner. */
  lemma GsjpAnchor51340709222()
    ensures ValidMesh(GsjpBounds, 6, "51340709222")
    ensures South(GsjpBounds, 6, "51340709222") == 979200 && West(GsjpBounds, 6, "51340709222") == 3887955
  {
  }

  /** The level-6 cell 51350000111 and its south-west corner. */
  lemma GsjpAnchor51350000111()
    ensures ValidMesh(GsjpBounds, 6, "51350000111")
    ensures South(GsjpBounds, 6, "51350000111") == 979200 && West(GsjpBounds, 6, "51350000111") == 3888000
  {
  }

  /** The level-6 cell 51354624444 and its south-west corner. */
  lemma GsjpAnchor51354624444()
    ensures ValidMesh(GsjpBounds, 6, "51354624444")
    ensures South(GsjpBounds, 6, "51354624444") == 989490 && West(GsjpBounds, 6, "51354624444") == 3911355
  {
  }

  /** The level-6 cell 51354635111 and its south-west corner. */
  lemma GsjpAnchor51354635111()
    ensures ValidMesh(GsjpBounds, 6, "51354635111")
    ensures South(GsjpBounds, 6, "51354635111") == 989520 && West(GsjpBounds, 6, "51354635111") == 3911400
  {
  }

  /** The level-6 cell 53293799222 and its south-west corner. */
  lemma GsjpAnchor53293799222()
    ensures ValidMesh(GsjpBounds, 6, "53293799222")
    ensures South(GsjpBounds, 6, "53293799222") == 1026960 && West(GsjpBounds, 6, "53293799222") == 3743955
  {
  }

  /** The level-6 cell 53303090111 and its south-west corner. */
  lemma GsjpAnchor53303090111()
    ensures ValidMesh(GsjpBounds, 6, "53303090111")
    ensures South(GsjpBounds, 6, "53303090111") == 1026960 && West(GsjpBounds, 6, "53303090111") == 3744000
  {
  }

  /** The level-6 cell 53393589333 and its south-west corner. */
  lemma GsjpAnchor53393589333()
    ensures ValidMesh(GsjpBounds, 6, "53393589333")
    ensures South(GsjpBounds, 6, "53393589333") == 1026930 && West(GsjpBounds, 6, "53393589333") == 4024440
  {
  }

  /** The level-6 cell 53393598222 and its south-west corner. */
  lemma GsjpAnchor53393598222()
    ensures ValidMesh(GsjpBounds, 6, "53393598222")
    ensures South(GsjpBounds, 6, "53393598222") == 1026960 && West(GsjpBounds, 6, "53393598222") == 4024395
  {
  }

  /** The level-6 cell 53393599111 and its south-west corner. */
  lemma GsjpAnchor53393599111()
    ensures ValidMesh(GsjpBounds, 6, "53393599111")
    ensures South(GsjpBounds, 6, "53393599111") == 1026960 && West(GsjpBounds, 6, "53393599111") == 4024440
  {
  }

  /** The level-6 cell 53393599112 and its south-west corner. */
  lemma GsjpAnchor53393599112()
    ensures ValidMesh(GsjpBounds, 6, "53393599112")
    ensures South(GsjpBounds, 6, "53393599112") == 1026960 && West(GsjpBounds, 6, "53393599112") == 4024485
  {
  }

  /** The level-6 cell 53393599113 and its south-west corner. */
  lemma GsjpAnchor53393599113()
    ensures ValidMesh(GsjpBounds, 6, "53393599113")
    ensures South(GsjpBounds, 6, "53393599113") == 1026990 && West(GsjpBounds, 6, "53393599113") == 4024440
  {
  }

  /** The level-6 cell 53393599121 and its south-west corner. */
  lemma GsjpAnchor53393599121()
    ensures ValidMesh(GsjpBounds, 6, "53393599121")
    ensures South(GsjpBounds, 6, "53393599121") == 1026960 && West(GsjpBounds, 6, "53393599121") == 4024530
  {
  }

  /** The level-6 cell 53393599131 and its south-west corner. */
  lemma GsjpAnchor53393599131()
    ensures ValidMesh(GsjpBounds, 6, "53393599131")
    ensures South(GsjpBounds, 6, "53393599131") == 1027020 && West(GsjpBounds, 6, "53393599131") == 4024440
  {
  }

  /** The level-6 cell 53397799333 and its south-west corner. */
  lemma GsjpAnchor53397799333()
    ensures ValidMesh(GsjpBounds, 6, "53397799333")
    ensures South(GsjpBounds, 6, "53397799333") == 1036770 && West(GsjpBounds, 6, "53397799333") == 4031640
  {
  }

  /** The level-6 cell 53397799444 and its south-west corner. */
  lemma GsjpAnchor53397799444()
    ensures ValidMesh(GsjpBounds, 6, "53397799444")
    ensures South(GsjpBounds, 6, "53397799444") == 1036770 && West(GsjpBounds, 6, "53397799444") == 4031955
  {
  }

  /** The level-6 cell 53407090333 and its south-west corner. */
  lemma GsjpAnchor53407090333()
    ensures ValidMesh(GsjpBounds, 6, "53407090333")
    ensures South(GsjpBounds, 6, "53407090333") == 1036770 && West(GsjpBounds, 6, "53407090333") == 4032000
  {
  }

  /** The level-6 cell 54390709111 and its south-west corner. */
  lemma GsjpAnchor54390709111()
    ensures ValidMesh(GsjpBounds, 6, "54390709111")
    ensures South(GsjpBounds, 6, "54390709111") == 1036800 && West(GsjpBounds, 6, "54390709111") == 4031640
  {
  }
}
